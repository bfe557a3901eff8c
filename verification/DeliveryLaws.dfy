/** What the delivery protocol guarantees in every run. */
module DeliveryLaws {
  import opened Domain
  import opened Store
  import opened Sets
  import opened Delivery

  lemma {:induction false} ReachableInv(max: int, ss: seq<State>, es: seq<Event>, n: nat)
    requires Run(max, ss, es) && Init(ss[0]) && n <= |es|
    ensures Inv(ss[n]) && |ss[n].pcs| == |ss[0].pcs|
  {
    if n == 0 {
    } else {
      ReachableInv(max, ss, es, n - 1);
      assert StepAt(max, ss, es, n - 1);
      StepKeepsInv(max, ss[n - 1], es[n - 1]);
    }
  }

  // ---------------------------------------------------------------------
  // Counting
  // ---------------------------------------------------------------------

  ghost function SentRows(s: State, n: Id): set<Id> {
    set id | id in s.logs && s.logs[id].notificationId == n && s.logs[id].status.Sent?
  }

  /** Workers past the check for n whose invocation has not ended. */
  ghost function InFlight(s: State, n: Id): set<Worker> {
    set w | 0 <= w < |s.pcs| && PastCheck(s.pcs[w]) && s.pcs[w].n == n
  }

  /** Workers that have delivered n and not yet recorded it. */
  ghost function Unrecorded(s: State, n: Id): set<Worker> {
    set w | 0 <= w < |s.pcs| && s.pcs[w].Acking? && s.pcs[w].n == n
  }

  ghost function LateSentRows(s: State, n: Id): set<Id> {
    set id | id in s.late && s.late[id].LateSent? && s.late[id].n == n
  }

  ghost function LostFor(s: State, n: Id): set<Id> {
    set id | id in s.lost && id in s.logs && s.logs[id].notificationId == n
  }

  ghost function AbandonedFor(s: State, n: Id): set<Id> {
    set id | id in s.abandoned && id in s.logs && s.logs[id].notificationId == n
  }

  /** Rows whose 'sent' update was left in flight and has not been dropped. */
  ghost function Undropped(s: State, n: Id): set<Id> {
    set id | id in s.abandoned && id !in s.lost && id in s.logs && s.logs[id].notificationId == n
  }

  /** Rows of n whose acknowledgement was lost or left in flight, each once. */
  ghost function Unconfirmed(s: State, n: Id): set<Id> {
    LostFor(s, n) + AbandonedFor(s, n)
  }

  /** Successful Sends of n. */
  function Sends(sends: seq<Delivered>, n: Id): nat {
    if sends == [] then 0
    else Sends(sends[..|sends| - 1], n) + if sends[|sends| - 1].n == n then 1 else 0
  }

  ghost predicate Bounded(s: State, n: Id) {
    |SentRows(s, n)| + |InFlight(s, n)| + |LateSentRows(s, n)| <= |s.pcs| + |Undropped(s, n)|
  }

  ghost predicate Balanced(s: State, n: Id) {
    Sends(s.sends, n) == |SentRows(s, n)| + |LostFor(s, n)| + |Unrecorded(s, n)| + |LateSentRows(s, n)|
  }

  /** A step touches one row at most. */
  ghost predicate DifferAt(s: State, t: State, row: Id) {
    && (forall id :: id != row ==> (id in t.logs <==> id in s.logs))
    && (forall id :: id != row && id in s.logs ==> t.logs[id] == s.logs[id])
    && (forall id :: id != row ==> (id in t.late <==> id in s.late))
    && (forall id :: id != row && id in s.late ==> t.late[id] == s.late[id])
    && (forall id :: id != row ==> (id in t.lost <==> id in s.lost))
    && (forall id :: id != row ==> (id in t.abandoned <==> id in s.abandoned))
  }

  lemma SentChange(s: State, t: State, row: Id, n: Id)
    requires DifferAt(s, t, row)
    ensures |SentRows(t, n)| == |SentRows(s, n)| + Count(row in SentRows(t, n)) - Count(row in SentRows(s, n))
  {
    assert SentRows(t, n) - {row} == SentRows(s, n) - {row};
    Toggle(SentRows(s, n), SentRows(t, n), row);
  }

  lemma LateChange(s: State, t: State, row: Id, n: Id)
    requires DifferAt(s, t, row)
    ensures |LateSentRows(t, n)| ==
            |LateSentRows(s, n)| + Count(row in LateSentRows(t, n)) - Count(row in LateSentRows(s, n))
  {
    assert LateSentRows(t, n) - {row} == LateSentRows(s, n) - {row};
    Toggle(LateSentRows(s, n), LateSentRows(t, n), row);
  }

  lemma LostChange(s: State, t: State, row: Id, n: Id)
    requires DifferAt(s, t, row)
    ensures |LostFor(t, n)| == |LostFor(s, n)| + Count(row in LostFor(t, n)) - Count(row in LostFor(s, n))
  {
    assert LostFor(t, n) - {row} == LostFor(s, n) - {row};
    Toggle(LostFor(s, n), LostFor(t, n), row);
  }

  lemma UndroppedChange(s: State, t: State, row: Id, n: Id)
    requires DifferAt(s, t, row)
    ensures |Undropped(t, n)| ==
            |Undropped(s, n)| + Count(row in Undropped(t, n)) - Count(row in Undropped(s, n))
  {
    assert Undropped(t, n) - {row} == Undropped(s, n) - {row};
    Toggle(Undropped(s, n), Undropped(t, n), row);
  }

  lemma RowsChange(s: State, t: State, row: Id, n: Id)
    requires DifferAt(s, t, row)
    ensures |SentRows(t, n)| == |SentRows(s, n)| + Count(row in SentRows(t, n)) - Count(row in SentRows(s, n))
    ensures |LateSentRows(t, n)| ==
            |LateSentRows(s, n)| + Count(row in LateSentRows(t, n)) - Count(row in LateSentRows(s, n))
    ensures |LostFor(t, n)| == |LostFor(s, n)| + Count(row in LostFor(t, n)) - Count(row in LostFor(s, n))
    ensures |Undropped(t, n)| ==
            |Undropped(s, n)| + Count(row in Undropped(t, n)) - Count(row in Undropped(s, n))
  {
    SentChange(s, t, row, n);
    LateChange(s, t, row, n);
    LostChange(s, t, row, n);
    UndroppedChange(s, t, row, n);
  }

  lemma WorkersChange(s: State, t: State, w: Worker, n: Id)
    requires w < |s.pcs| == |t.pcs| && t.pcs == s.pcs[w := t.pcs[w]]
    ensures InFlight(t, n) - {w} == InFlight(s, n) - {w}
    ensures Unrecorded(t, n) - {w} == Unrecorded(s, n) - {w}
    ensures w in InFlight(t, n) <==> PastCheck(t.pcs[w]) && t.pcs[w].n == n
    ensures w in Unrecorded(t, n) <==> t.pcs[w].Acking? && t.pcs[w].n == n
    ensures |InFlight(t, n)| == |InFlight(s, n)| + Count(w in InFlight(t, n)) - Count(w in InFlight(s, n))
    ensures |Unrecorded(t, n)| == |Unrecorded(s, n)| + Count(w in Unrecorded(t, n)) - Count(w in Unrecorded(s, n))
  {
    Toggle(InFlight(s, n), InFlight(t, n), w);
    Toggle(Unrecorded(s, n), Unrecorded(t, n), w);
  }

  lemma AtMostOneEach(s: State, n: Id)
    ensures |InFlight(s, n)| <= |s.pcs|
  {
    SubsetSize(InFlight(s, n), Range(0, |s.pcs|));
  }

  lemma LateWereAbandoned(s: State, n: Id)
    requires Inv(s)
    ensures |LateSentRows(s, n)| <= |Undropped(s, n)|
  {
    SubsetSize(LateSentRows(s, n), Undropped(s, n));
  }

  /** Steps of a worker that neither deliver nor record anything. */
  lemma QuietStep(s: State, t: State, w: Worker, row: Id, n: Id)
    requires Bounded(s, n) && Balanced(s, n)
    requires w < |s.pcs| == |t.pcs| && t.pcs == s.pcs[w := t.pcs[w]]
    requires t.late == s.late && t.sends == s.sends && t.lost == s.lost && t.abandoned == s.abandoned
    requires DifferAt(s, t, row) && row !in s.lost && row !in s.abandoned
    requires row in s.logs ==> !s.logs[row].status.Sent?
    requires row in t.logs ==> !t.logs[row].status.Sent?
    requires !s.pcs[w].Acking? && !t.pcs[w].Acking?
    requires PastCheck(t.pcs[w]) ==> PastCheck(s.pcs[w]) && t.pcs[w].n == s.pcs[w].n
    ensures Bounded(t, n) && Balanced(t, n)
  {
    RowsChange(s, t, row, n);
    WorkersChange(s, t, w, n);
  }

  /** Steps of a worker that touch no row. */
  lemma LocalStep(s: State, t: State, w: Worker, n: Id)
    requires Bounded(s, n) && Balanced(s, n)
    requires w < |s.pcs| == |t.pcs| && t.pcs == s.pcs[w := t.pcs[w]]
    requires t.logs == s.logs && t.late == s.late
    requires t.sends == s.sends && t.lost == s.lost && t.abandoned == s.abandoned
    requires !s.pcs[w].Acking? && !t.pcs[w].Acking?
    requires PastCheck(t.pcs[w]) ==> PastCheck(s.pcs[w]) && t.pcs[w].n == s.pcs[w].n
    ensures Bounded(t, n) && Balanced(t, n)
  {
    RowsChange(s, t, "", n);
    WorkersChange(s, t, w, n);
  }

  /** A passed check: nothing is marked sent yet, so the load is at most one
      per worker besides what was abandoned. */
  lemma PassingCheck(s: State, t: State, w: Worker, row: Id, n: Id)
    requires Inv(s) && Bounded(s, n) && Balanced(s, n)
    requires w < |s.pcs| && s.pcs[w].Checking? && !SentExists(s.logs, s.pcs[w].n)
    requires t == Goto(s, w, Inserting(s.pcs[w].n, row)).(used := s.used + {row})
    ensures Bounded(t, n) && Balanced(t, n)
  {
    RowsChange(s, t, row, n);
    WorkersChange(s, t, w, n);
    if s.pcs[w].n == n {
      assert SentRows(s, n) == {};
      AtMostOneEach(t, n);
      LateWereAbandoned(s, n);
    }
  }

  lemma Delivering(s: State, t: State, w: Worker, n: Id)
    requires Bounded(s, n) && Balanced(s, n)
    requires w < |s.pcs| && s.pcs[w].Sending?
    requires t == Goto(s, w, Acking(s.pcs[w].n, s.pcs[w].row)).(sends := s.sends + [Delivered(s.pcs[w].row, s.pcs[w].n)])
    ensures Bounded(t, n) && Balanced(t, n)
  {
    RowsChange(s, t, "", n);
    WorkersChange(s, t, w, n);
    assert t.sends[..|t.sends| - 1] == s.sends;
  }

  lemma LosingAck(s: State, t: State, w: Worker, n: Id)
    requires Bounded(s, n) && Balanced(s, n)
    requires w < |s.pcs| && WorkerHolds(s, s.pcs[w]) && s.lost <= s.stuck
    requires s.pcs[w].Acking? && t == Leave(s, w)
    ensures Bounded(t, n) && Balanced(t, n)
  {
    RowsChange(s, t, s.pcs[w].row, n);
    WorkersChange(s, t, w, n);
  }

  lemma Recording(s: State, t: State, w: Worker, channel: Channel, at: int, n: Id)
    requires Bounded(s, n) && Balanced(s, n)
    requires w < |s.pcs| && WorkerHolds(s, s.pcs[w]) && s.lost <= s.stuck
    requires s.pcs[w].Acking? && t == LeaveApplied(s, w, channel, at)
    ensures Bounded(t, n) && Balanced(t, n)
  {
    RowsChange(s, t, s.pcs[w].row, n);
    WorkersChange(s, t, w, n);
  }

  lemma Abandoning(max: int, s: State, e: Event, t: State, n: Id)
    requires e.Abandon? && Next(max, s, e, t) && Bounded(s, n) && Balanced(s, n)
    requires WorkerHolds(s, s.pcs[e.w]) && s.lost <= s.stuck
    ensures Bounded(t, n) && Balanced(t, n)
  {
    var w := e.w;
    if s.pcs[w].Acking? {
      AbandoningAck(s, t, w, n);
    } else {
      AbandoningOther(s, t, w, n);
    }
  }

  lemma AbandoningAck(s: State, t: State, w: Worker, n: Id)
    requires Bounded(s, n) && Balanced(s, n)
    requires w < |s.pcs| && WorkerHolds(s, s.pcs[w]) && s.lost <= s.stuck && s.pcs[w].Acking?
    requires var pc := s.pcs[w];
             t == Goto(s, w, Idle).(late := s.late[pc.row := LateSent(pc.n)], abandoned := s.abandoned + {pc.row})
    ensures Bounded(t, n) && Balanced(t, n)
  {
    RowsChange(s, t, s.pcs[w].row, n);
    WorkersChange(s, t, w, n);
  }

  lemma AbandoningOther(s: State, t: State, w: Worker, n: Id)
    requires Bounded(s, n) && Balanced(s, n)
    requires w < |s.pcs| && PastCheck(s.pcs[w]) && WorkerHolds(s, s.pcs[w]) && !s.pcs[w].Acking?
    requires t.pcs == s.pcs[w := Idle] && t.logs == s.logs && t.sends == s.sends
    requires t.lost == s.lost && t.abandoned == s.abandoned
    requires var row := s.pcs[w].row;
             row in t.late && t.late == s.late[row := t.late[row]] && !t.late[row].LateSent?
    ensures Bounded(t, n) && Balanced(t, n)
  {
    RowsChange(s, t, s.pcs[w].row, n);
    WorkersChange(s, t, w, n);
  }

  /** What every late statement leaves alone. */
  ghost predicate LateStep(s: State, t: State, row: Id) {
    && row in s.late && t.late == s.late - {row}
    && t.pcs == s.pcs && t.sends == s.sends && t.abandoned == s.abandoned
    && LateHolds(s) && StuckHolds(s)
  }

  lemma SameWorkers(s: State, t: State, n: Id)
    requires t.pcs == s.pcs
    ensures InFlight(t, n) == InFlight(s, n) && Unrecorded(t, n) == Unrecorded(s, n)
  {
  }

  lemma LateSentApplied(s: State, t: State, row: Id, n: Id)
    requires LateStep(s, t, row) && Bounded(s, n) && Balanced(s, n) && s.late[row].LateSent?
    requires t.lost == s.lost && t.logs == Updated(s.logs, row, Status.Sent, "")
    ensures Bounded(t, n) && Balanced(t, n)
  {
    RowsChange(s, t, row, n);
    SameWorkers(s, t, n);
  }

  lemma LateOtherApplied(s: State, t: State, row: Id, n: Id)
    requires LateStep(s, t, row) && Bounded(s, n) && Balanced(s, n) && !s.late[row].LateSent?
    requires t.lost == s.lost && t.logs == AppliedLate(s.logs, row, s.late[row])
    ensures Bounded(t, n) && Balanced(t, n)
  {
    RowsChange(s, t, row, n);
    SameWorkers(s, t, n);
  }

  lemma LateDropped(s: State, t: State, row: Id, n: Id)
    requires LateStep(s, t, row) && Bounded(s, n) && Balanced(s, n)
    requires t.logs == s.logs && t.lost == if s.late[row].LateSent? then s.lost + {row} else s.lost
    ensures Bounded(t, n) && Balanced(t, n)
  {
    RowsChange(s, t, row, n);
    SameWorkers(s, t, n);
  }

  /** A worker's own statement on a row that was not delivered. */
  lemma WritingStep(s: State, t: State, w: Worker, n: Id)
    requires Bounded(s, n) && Balanced(s, n)
    requires w < |s.pcs| == |t.pcs| && t.pcs == s.pcs[w := t.pcs[w]]
    requires WorkerHolds(s, s.pcs[w]) && s.lost <= s.stuck
    requires s.pcs[w].Inserting? || s.pcs[w].Failing?
    requires !t.pcs[w].Acking? && (PastCheck(t.pcs[w]) ==> t.pcs[w].n == s.pcs[w].n)
    requires exists channel, at :: t.logs == Applied(s.logs, s.pcs[w], channel, at)
    requires t.late == s.late && t.sends == s.sends && t.lost == s.lost && t.abandoned == s.abandoned
    ensures Bounded(t, n) && Balanced(t, n)
  {
    QuietStep(s, t, w, s.pcs[w].row, n);
  }

  lemma EndingStep(max: int, s: State, e: Event, t: State, n: Id)
    requires Bounded(s, n) && Balanced(s, n) && Next(max, s, e, t)
    requires (e.Update? || e.Crash? || e.Insert?) && WorkerHolds(s, s.pcs[e.w]) && s.lost <= s.stuck
    ensures Bounded(t, n) && Balanced(t, n)
  {
    var w := e.w;
    var applied := if e.Crash? then e.applied else e.fault.Applied();
    var channel, at := if e.Update? then IOS else e.channel, if e.Update? then 0 else e.at;
    if s.pcs[w].Acking? {
      if applied {
        Recording(s, t, w, channel, at, n);
      } else {
        LosingAck(s, t, w, n);
      }
    } else if applied {
      assert t.logs == Applied(s.logs, s.pcs[w], channel, at);
      WritingStep(s, t, w, n);
    } else {
      LocalStep(s, t, w, n);
    }
  }

  lemma StepKeepsCounts(max: int, s: State, e: Event, t: State, n: Id)
    requires Inv(s) && Bounded(s, n) && Balanced(s, n) && Next(max, s, e, t)
    ensures Bounded(t, n) && Balanced(t, n)
  {
    match e
    case Check(w, fault, drawn) =>
      if fault.Fine? && !SentExists(s.logs, s.pcs[w].n) {
        PassingCheck(s, t, w, drawn, n);
      } else {
        LocalStep(s, t, w, n);
      }
    case SendOk(w) => Delivering(s, t, w, n);
    case Update(_, _) => EndingStep(max, s, e, t, n);
    case Crash(_, _, _, _) => EndingStep(max, s, e, t, n);
    case Insert(_, _, _, _) => EndingStep(max, s, e, t, n);
    case Abandon(_, _, _) => Abandoning(max, s, e, t, n);
    case LateApply(row) =>
      if s.late[row].LateSent? {
        LateSentApplied(s, t, row, n);
      } else {
        LateOtherApplied(s, t, row, n);
      }
    case LateDrop(row) => LateDropped(s, t, row, n);
    case Receive(w, _) => LocalStep(s, t, w, n);
    case SendErr(w, _) => LocalStep(s, t, w, n);
    case Timer(w) => LocalStep(s, t, w, n);
    case Cancel(w, _) => LocalStep(s, t, w, n);
  }

  lemma InitCounts(s: State, n: Id)
    requires Init(s)
    ensures Bounded(s, n) && Balanced(s, n)
  {
  }

  lemma {:induction false} CountsHold(max: int, ss: seq<State>, es: seq<Event>, i: nat, n: Id)
    requires Run(max, ss, es) && Init(ss[0]) && i <= |es|
    ensures Bounded(ss[i], n) && Balanced(ss[i], n)
  {
    if i == 0 {
      InitCounts(ss[0], n);
    } else {
      CountsHold(max, ss, es, i - 1, n);
      RunKeepsCounts(max, ss, es, i - 1, n);
    }
  }

  lemma RunKeepsCounts(max: int, ss: seq<State>, es: seq<Event>, i: nat, n: Id)
    requires Run(max, ss, es) && Init(ss[0]) && i < |es|
    requires Bounded(ss[i], n) && Balanced(ss[i], n)
    ensures Bounded(ss[i + 1], n) && Balanced(ss[i + 1], n)
  {
    ReachableInv(max, ss, es, i);
    assert StepAt(max, ss, es, i);
    StepKeepsCounts(max, ss[i], es[i], ss[i + 1], n);
  }

  /** For K workers and every interleaving with crashes, redeliveries and
      failing or late statements: the rows marked sent for a notification plus
      the invocations past the check plus the late 'sent' updates never exceed
      K plus the 'sent' updates left in flight and not dropped; and the
      successful Sends are exactly the rows marked sent, the lost
      acknowledgements, and the successes still to be recorded. So there are
      at most K plus one for each acknowledgement lost or left in flight. */
  lemma DeliveryBound(max: int, ss: seq<State>, es: seq<Event>, i: nat, n: Id)
    requires Run(max, ss, es) && Init(ss[0]) && i <= |es|
    ensures |SentRows(ss[i], n)| + |InFlight(ss[i], n)| + |LateSentRows(ss[i], n)|
              <= |ss[0].pcs| + |Undropped(ss[i], n)|
    ensures Sends(ss[i].sends, n) ==
              |SentRows(ss[i], n)| + |LostFor(ss[i], n)| + |Unrecorded(ss[i], n)| + |LateSentRows(ss[i], n)|
    ensures Sends(ss[i].sends, n) <= |ss[0].pcs| + |Unconfirmed(ss[i], n)|
  {
    ReachableInv(max, ss, es, i);
    CountsHold(max, ss, es, i, n);
    SubsetSize(Unrecorded(ss[i], n), InFlight(ss[i], n));
    assert Unconfirmed(ss[i], n) == LostFor(ss[i], n) + Undropped(ss[i], n);
  }

  // ---------------------------------------------------------------------
  // Ghost deliveries and the life of a row
  // ---------------------------------------------------------------------

  /** Each successful Send has a row of its own, of its notification, pending
      or sent and never failed; and each row marked sent has a Send behind it. */
  lemma NoGhostDeliveries(max: int, ss: seq<State>, es: seq<Event>, i: nat)
    requires Run(max, ss, es) && Init(ss[0]) && i <= |es|
    ensures var s := ss[i];
            && (forall k :: 0 <= k < |s.sends| ==>
                  var row := s.sends[k].row;
                  row in s.logs && s.logs[row].notificationId == s.sends[k].n && !s.logs[row].status.Failed?)
            && (forall j, k :: 0 <= j < k < |s.sends| ==> s.sends[j].row != s.sends[k].row)
            && (forall row :: row in s.logs && s.logs[row].status.Sent? ==>
                  exists k :: 0 <= k < |s.sends| && s.sends[k] == Delivered(row, s.logs[row].notificationId))
  {
    ReachableInv(max, ss, es, i);
    var s := ss[i];
    forall k | 0 <= k < |s.sends|
      ensures !s.logs[s.sends[k].row].status.Failed?
    {
      assert s.sends[k] in s.sends;
    }
    forall row | row in s.logs && s.logs[row].status.Sent?
      ensures exists k :: 0 <= k < |s.sends| && s.sends[k] == Delivered(row, s.logs[row].notificationId)
    {
      var d :| d in s.sends && d.row == row;
      var k :| 0 <= k < |s.sends| && s.sends[k] == d;
    }
  }

  /** A Send is made only under a pending row that was inserted before it and
      that no Send succeeded under before. */
  lemma SendsFollowInserts(max: int, ss: seq<State>, es: seq<Event>, i: nat)
    requires Run(max, ss, es) && Init(ss[0]) && i < |es| && (es[i].SendOk? || es[i].SendErr?)
    ensures es[i].w < |ss[i].pcs| && PastCheck(ss[i].pcs[es[i].w])
    ensures var pc := ss[i].pcs[es[i].w];
            PendingFor(ss[i], pc.row, pc.n) && forall k :: 0 <= k < |ss[i].sends| ==> ss[i].sends[k].row != pc.row
  {
    ReachableInv(max, ss, es, i);
    assert StepAt(max, ss, es, i);
    UndeliveredHasNoSend(ss[i], ss[i].pcs[es[i].w].row);
  }

  /** What never changes about a row, and which statuses may follow which. */
  predicate RowMayBecome(a: DeliveryLog, b: DeliveryLog) {
    && b.id == a.id && b.notificationId == a.notificationId && b.channel == a.channel
    && b.attempt == a.attempt && b.attemptedAt == a.attemptedAt
    && (a.status.Pending? || b == a)
  }

  ghost predicate RowsGrow(s: State, t: State) {
    && (forall row :: row in s.logs ==> row in t.logs && RowMayBecome(s.logs[row], t.logs[row]))
    && s.used <= t.used
  }

  ghost predicate ClaimsShrink(s: State, t: State, n: Id) {
    forall w :: 0 <= w < |t.pcs| && PastCheck(t.pcs[w]) && t.pcs[w].n == n ==>
      w < |s.pcs| && PastCheck(s.pcs[w]) && s.pcs[w].n == n && s.pcs[w].row == t.pcs[w].row
  }

  /** The event carries out a statement on this row: the one its worker waits
      for, or one that was left in flight. */
  ghost predicate WritesRow(s: State, e: Event, row: Id) {
    match e
    case LateApply(r) => r == row
    case LateDrop(_) => false
    case _ => e.w < |s.pcs| && PastCheck(s.pcs[e.w]) && s.pcs[e.w].row == row
  }

  lemma StepWritesOneRow(max: int, s: State, e: Event, t: State, row: Id)
    requires Inv(s) && Next(max, s, e, t)
    ensures row in s.logs ==> row in t.logs
    ensures row in t.logs && (row !in s.logs || t.logs[row] != s.logs[row]) ==> WritesRow(s, e, row)
  {
  }

  lemma WrittenRows(max: int, s: State, e: Event, t: State, row: Id)
    requires Inv(s) && Next(max, s, e, t) && WritesRow(s, e, row)
    ensures row in s.logs ==> row in t.logs && RowMayBecome(s.logs[row], t.logs[row])
    ensures row !in s.logs && row in t.logs ==> t.logs[row].status.Pending?
  {
  }

  lemma StepGrows(max: int, s: State, e: Event, t: State)
    requires Inv(s) && Next(max, s, e, t)
    ensures RowsGrow(s, t)
  {
    forall row | row in s.logs ensures row in t.logs && RowMayBecome(s.logs[row], t.logs[row]) {
      StepWritesOneRow(max, s, e, t, row);
      if WritesRow(s, e, row) {
        WrittenRows(max, s, e, t, row);
      }
    }
  }

  /** Only a passed check puts a worker past the check. */
  lemma PassingIsChecked(max: int, s: State, e: Event, t: State, w: nat)
    requires Next(max, s, e, t) && w < |t.pcs| && PastCheck(t.pcs[w])
    ensures w < |s.pcs|
    ensures (PastCheck(s.pcs[w]) && t.pcs[w].n == s.pcs[w].n && t.pcs[w].row == s.pcs[w].row) ||
            !SentExists(s.logs, t.pcs[w].n)
  {
  }

  lemma StepShrinksClaims(max: int, s: State, e: Event, t: State, n: Id)
    requires Next(max, s, e, t) && SentExists(s.logs, n)
    ensures ClaimsShrink(s, t, n)
  {
    forall w | 0 <= w < |t.pcs| && PastCheck(t.pcs[w]) && t.pcs[w].n == n
      ensures w < |s.pcs| && PastCheck(s.pcs[w]) && s.pcs[w].n == n && s.pcs[w].row == t.pcs[w].row
    {
      PassingIsChecked(max, s, e, t, w);
    }
  }

  lemma {:induction false} RunGrows(max: int, ss: seq<State>, es: seq<Event>, i: nat, j: nat)
    requires Run(max, ss, es) && Init(ss[0]) && i <= j <= |es|
    ensures RowsGrow(ss[i], ss[j])
  {
    if i == j {
    } else {
      RunGrows(max, ss, es, i, j - 1);
      ReachableInv(max, ss, es, j - 1);
      assert StepAt(max, ss, es, j - 1);
      StepGrows(max, ss[j - 1], es[j - 1], ss[j]);
    }
  }

  /** Once a row of n is marked sent it stays so in every continuation, and
      the invocations still able to send n only become fewer. */
  lemma {:induction false} IdempotencyIsPermanent(max: int, ss: seq<State>, es: seq<Event>, i: nat, j: nat, row: Id)
    requires Run(max, ss, es) && Init(ss[0]) && i <= j <= |es|
    requires row in ss[i].logs && ss[i].logs[row].status.Sent?
    ensures row in ss[j].logs && ss[j].logs[row] == ss[i].logs[row]
    ensures ClaimsShrink(ss[i], ss[j], ss[i].logs[row].notificationId)
  {
    RunGrows(max, ss, es, i, j);
    if i == j {
    } else {
      var n := ss[i].logs[row].notificationId;
      IdempotencyIsPermanent(max, ss, es, i, j - 1, row);
      ReachableInv(max, ss, es, j - 1);
      assert StepAt(max, ss, es, j - 1);
      assert SentExists(ss[j - 1].logs, n);
      StepShrinksClaims(max, ss[j - 1], es[j - 1], ss[j], n);
    }
  }

  /** Every check made after that ends its invocation without an insert or a
      Send. */
  lemma LaterChecksSkip(max: int, ss: seq<State>, es: seq<Event>, i: nat, j: nat, row: Id)
    requires Run(max, ss, es) && Init(ss[0]) && i <= j < |es|
    requires row in ss[i].logs && ss[i].logs[row].status.Sent?
    requires es[j].Check? && es[j].w < |ss[j].pcs|
    requires ss[j].pcs[es[j].w] == Checking(ss[i].logs[row].notificationId)
    ensures ss[j + 1] == Goto(ss[j], es[j].w, Idle)
  {
    IdempotencyIsPermanent(max, ss, es, i, j, row);
    assert SentExists(ss[j].logs, ss[i].logs[row].notificationId);
    assert StepAt(max, ss, es, j);
  }

  /** Every row is created pending by the invocation that drew its id, only
      that invocation's own statement ever changes it, and it changes status at
      most once, to sent or failed. */
  lemma RowLifeCycle(max: int, ss: seq<State>, es: seq<Event>, i: nat, row: Id)
    requires Run(max, ss, es) && Init(ss[0]) && i < |es| && row in ss[i + 1].logs
    ensures row !in ss[i].logs ==> ss[i + 1].logs[row].status.Pending?
    ensures row in ss[i].logs ==> RowMayBecome(ss[i].logs[row], ss[i + 1].logs[row])
    ensures row !in ss[i].logs || ss[i].logs[row] != ss[i + 1].logs[row] ==> WritesRow(ss[i], es[i], row)
  {
    ReachableInv(max, ss, es, i);
    assert StepAt(max, ss, es, i);
    StepWritesOneRow(max, ss[i], es[i], ss[i + 1], row);
    if WritesRow(ss[i], es[i], row) {
      WrittenRows(max, ss[i], es[i], ss[i + 1], row);
    }
  }

  /** A statement left in flight may still land: an insert then adds its pending
      row, an update marks its row sent or failed, though its worker has gone. */
  lemma LateStatementsLand(max: int, ss: seq<State>, es: seq<Event>, i: nat, row: Id)
    requires Run(max, ss, es) && Init(ss[0]) && i <= |es| && row in ss[i].late
    ensures Enabled(max, ss[i], LateApply(row)) && Enabled(max, ss[i], LateDrop(row))
    ensures row in Step(max, ss[i], LateApply(row)).logs
    ensures var after := Step(max, ss[i], LateApply(row)).logs[row];
            match ss[i].late[row]
            case LateInsert(log) => after == log && after.status == Status.Pending
            case LateSent(n) => after.notificationId == n && after.status == Status.Sent && after.errorMessage == ""
            case LateFailed(n, errMsg) => after.notificationId == n && after.status == Status.Failed && after.errorMessage == errMsg
  {
    ReachableInv(max, ss, es, i);
  }

  /** The pending rows are exactly those of invocations in flight, those whose
      update is still in flight without them, and those interrupted for good;
      and no row is two of these at once. */
  lemma PendingRowsAreExplained(max: int, ss: seq<State>, es: seq<Event>, i: nat, row: Id)
    requires Run(max, ss, es) && Init(ss[0]) && i <= |es|
    ensures var s := ss[i];
            && ((row in s.logs && s.logs[row].status.Pending?) <==>
                  (exists w :: HeldBy(s, w, row)) || (row in s.late && !s.late[row].LateInsert?) || row in s.stuck)
            && (row in s.stuck ==> row !in s.late && forall w :: !HeldBy(s, w, row))
            && (row in s.late ==> forall w :: !HeldBy(s, w, row))
            && (forall v, w :: HeldBy(s, v, row) && HeldBy(s, w, row) ==> v == w)
  {
    ReachableInv(max, ss, es, i);
    var s := ss[i];
    forall v, w | HeldBy(s, v, row) && HeldBy(s, w, row) ensures v == w {
    }
  }

  // ---------------------------------------------------------------------
  // The bound is attained
  // ---------------------------------------------------------------------

  function Name(k: nat): (id: Id)
    ensures |id| == k
  {
    seq(k, _ => 'x')
  }

  /** Nothing is marked sent, and fewer than m names have been drawn. */
  ghost predicate Unsent(s: State, m: nat) {
    && (forall id :: id in s.logs ==> s.logs[id].status.Pending?)
    && (forall id :: id in s.used ==> |id| < m)
    && s.lost + s.abandoned <= s.logs.Keys <= s.used
  }

  /** n has been delivered m times, each acknowledgement lost or left in flight. */
  ghost predicate Wasted(s: State, m: nat, n: Id) {
    Sends(s.sends, n) == |Unconfirmed(s, n)| == m
  }

  /** That, and all workers are idle. */
  ghost predicate Spent(s: State, m: nat, n: Id) {
    Unsent(s, m) && Wasted(s, m, n) && forall v :: 0 <= v < |s.pcs| ==> s.pcs[v] == Idle
  }

  /** One worker takes n up to the point of sending it. */
  lemma TakeOne(max: int, ss: seq<State>, es: seq<Event>, w: nat, n: Id, row: Id) returns (ss': seq<State>, es': seq<Event>)
    requires Run(max, ss, es) && max >= 1 && w < |ss[|es|].pcs| && ss[|es|].pcs[w] == Idle && row !in ss[|es|].used
    requires !SentExists(ss[|es|].logs, n)
    ensures Run(max, ss', es') && ss'[0] == ss[0]
    ensures var s, t := ss[|es|], ss'[|es'|];
            t == s.(pcs := s.pcs[w := Sending(n, row, 1)], used := s.used + {row},
                    logs := s.logs[row := DeliveryLog(row, n, IOS, 1, Pending, "", 0)])
  {
    var t;
    var s := ss[|es|];
    ss', es', t := Extend(max, ss, es, Receive(w, n));
    ss', es', t := Extend(max, ss', es', Check(w, Fine, row));
    assert t.pcs == s.pcs[w := Inserting(n, row)];
    ss', es', t := Extend(max, ss', es', Insert(w, Fine, IOS, 0));
    assert t.pcs == s.pcs[w := Sending(n, row, 1)];
  }

  /** And one takes it past that. */
  lemma SendOnce(max: int, ss: seq<State>, es: seq<Event>, n: Id, row: Id) returns (ss': seq<State>, es': seq<Event>)
    requires Run(max, ss, es) && max >= 1 && |ss[|es|].pcs| >= 1 && ss[|es|].pcs[0] == Idle && row !in ss[|es|].used
    requires !SentExists(ss[|es|].logs, n)
    ensures Run(max, ss', es') && ss'[0] == ss[0]
    ensures var s, t := ss[|es|], ss'[|es'|];
            t == s.(pcs := s.pcs[0 := Acking(n, row)], sends := s.sends + [Delivered(row, n)], used := s.used + {row},
                    logs := s.logs[row := DeliveryLog(row, n, IOS, 1, Pending, "", 0)])
  {
    var t;
    ss', es' := TakeOne(max, ss, es, 0, n, row);
    ss', es', t := Extend(max, ss', es', SendOk(0));
    assert t.pcs == ss[|es|].pcs[0 := Acking(n, row)];
  }

  /** After one more delivery under a new row. */
  ghost predicate OneMore(s: State, t: State, n: Id, row: Id) {
    && t.logs == s.logs[row := DeliveryLog(row, n, IOS, 1, Pending, "", 0)] && t.used == s.used + {row}
    && t.sends == s.sends + [Delivered(row, n)] && t.pcs == s.pcs
  }

  lemma OneMoreSend(s: State, t: State, n: Id, row: Id)
    requires OneMore(s, t, n, row)
    ensures Sends(t.sends, n) == Sends(s.sends, n) + 1
  {
    assert t.sends[..|t.sends| - 1] == s.sends;
  }

  lemma StaysUnsent(s: State, t: State, m: nat, n: Id, row: Id)
    requires Unsent(s, m) && row == Name(m) && OneMore(s, t, n, row)
    requires t.lost + t.abandoned <= s.lost + s.abandoned + {row}
    ensures Unsent(t, m + 1) && row !in s.used
  {
  }

  lemma UnconfirmedGrows(s: State, t: State, n: Id, row: Id)
    requires row !in s.lost + s.abandoned && t.lost + t.abandoned == s.lost + s.abandoned + {row}
    requires row in t.logs && t.logs[row].notificationId == n && t.logs == s.logs[row := t.logs[row]]
    ensures Unconfirmed(t, n) == Unconfirmed(s, n) + {row} && row !in Unconfirmed(s, n)
  {
    forall id ensures id in Unconfirmed(t, n) <==> id in Unconfirmed(s, n) + {row} {
      assert id in Unconfirmed(t, n) <==> id in t.lost + t.abandoned && id in t.logs && t.logs[id].notificationId == n;
      assert id in Unconfirmed(s, n) <==> id in s.lost + s.abandoned && id in s.logs && s.logs[id].notificationId == n;
    }
  }

  lemma WasteOne(s: State, t: State, m: nat, n: Id, row: Id)
    requires Wasted(s, m, n) && OneMore(s, t, n, row) && row !in s.lost + s.abandoned
    requires t.lost + t.abandoned == s.lost + s.abandoned + {row}
    ensures Wasted(t, m + 1, n)
  {
    OneMoreSend(s, t, n, row);
    UnconfirmedGrows(s, t, n, row);
  }

  lemma SpendNext(max: int, ss: seq<State>, es: seq<Event>, m: nat, lost: bool, n: Id)
    returns (ss': seq<State>, es': seq<Event>)
    requires Run(max, ss, es) && max >= 1 && |ss[|es|].pcs| >= 1 && Spent(ss[|es|], m, n)
    ensures Run(max, ss', es') && ss'[0] == ss[0] && |ss'[|es'|].pcs| == |ss[|es|].pcs| && Spent(ss'[|es'|], m + 1, n)
  {
    var s := ss[|es|];
    var t;
    ss', es' := SendOnce(max, ss, es, n, Name(m));
    ss', es', t := Extend(max, ss', es', if lost then Crash(0, false, IOS, 0) else Abandon(0, IOS, 0));
    assert t.pcs == s.pcs;
    StaysUnsent(s, t, m, n, Name(m));
    WasteOne(s, t, m, n, Name(m));
  }

  /** True in the sequence is a lost acknowledgement, false one left in flight. */
  lemma {:induction false} SpendAll(max: int, k: nat, wasted: seq<bool>, n: Id) returns (ss: seq<State>, es: seq<Event>)
    requires max >= 1 && (k >= 1 || wasted == [])
    ensures Run(max, ss, es) && Init(ss[0]) && |ss[0].pcs| == |ss[|es|].pcs| == k && Spent(ss[|es|], |wasted|, n)
  {
    if wasted == [] {
      ss, es := [State(map[], seq(k, _ => Idle), map[], [], {}, {}, {}, {})], [];
      assert Unconfirmed(ss[0], n) == {};
    } else {
      var m := |wasted| - 1;
      ss, es := SpendAll(max, k, wasted[..m], n);
      ss, es := SpendNext(max, ss, es, m, wasted[m], n);
    }
  }

  /** Then workers below w have taken n up to the point of sending it. */
  ghost predicate Loaded(s: State, w: nat, m: nat, n: Id) {
    && w <= |s.pcs| && Wasted(s, m, n) && Unsent(s, m + w)
    && (forall v :: 0 <= v < |s.pcs| ==> if v < w then s.pcs[v].Sending? && s.pcs[v].n == n else s.pcs[v] == Idle)
  }

  lemma StillWasted(s: State, t: State, m: nat, n: Id, row: Id)
    requires Wasted(s, m, n) && t.lost == s.lost && t.abandoned == s.abandoned && t.sends == s.sends
    requires row !in s.lost + s.abandoned && row in t.logs && t.logs == s.logs[row := t.logs[row]]
    ensures Wasted(t, m, n)
  {
    forall id ensures id in Unconfirmed(t, n) <==> id in Unconfirmed(s, n) {
    }
    assert Unconfirmed(t, n) == Unconfirmed(s, n);
  }

  lemma LoadNext(max: int, ss: seq<State>, es: seq<Event>, w: nat, m: nat, n: Id)
    returns (ss': seq<State>, es': seq<Event>)
    requires Run(max, ss, es) && max >= 1 && Loaded(ss[|es|], w, m, n) && w < |ss[|es|].pcs|
    ensures Run(max, ss', es') && ss'[0] == ss[0] && |ss'[|es'|].pcs| == |ss[|es|].pcs| && Loaded(ss'[|es'|], w + 1, m, n)
  {
    var s, row := ss[|es|], Name(m + w);
    ss', es' := TakeOne(max, ss, es, w, n, row);
    StillWasted(s, ss'[|es'|], m, n, row);
  }

  /** The first w workers have sent. */
  ghost predicate Fired(s: State, w: nat, m: nat, n: Id) {
    && w <= |s.pcs| && Sends(s.sends, n) == m + w && |Unconfirmed(s, n)| == m
    && (forall v :: w <= v < |s.pcs| ==> s.pcs[v].Sending? && s.pcs[v].n == n)
  }

  lemma FireNext(max: int, ss: seq<State>, es: seq<Event>, w: nat, m: nat, n: Id)
    returns (ss': seq<State>, es': seq<Event>)
    requires Run(max, ss, es) && Fired(ss[|es|], w, m, n) && w < |ss[|es|].pcs|
    ensures Run(max, ss', es') && ss'[0] == ss[0] && |ss'[|es'|].pcs| == |ss[|es|].pcs| && Fired(ss'[|es'|], w + 1, m, n)
  {
    var t;
    var s := ss[|es|];
    ss', es', t := Extend(max, ss, es, SendOk(w));
    assert t.sends[..|t.sends| - 1] == s.sends;
    assert Unconfirmed(t, n) == Unconfirmed(s, n);
  }

  /** The bound is reached for every number of workers and every mix of
      acknowledgements lost and left in flight: K workers can all check before
      any records. */
  lemma BoundIsAttained(max: int, k: nat, wasted: seq<bool>, n: Id) returns (ss: seq<State>, es: seq<Event>)
    requires max >= 1 && (k >= 1 || wasted == [])
    ensures Run(max, ss, es) && Init(ss[0]) && |ss[0].pcs| == k
    ensures |Unconfirmed(ss[|es|], n)| == |wasted| && Sends(ss[|es|].sends, n) == k + |wasted|
  {
    ss, es := SpendAll(max, k, wasted, n);
    for w := 0 to k
      invariant Run(max, ss, es) && Init(ss[0]) && |ss[0].pcs| == |ss[|es|].pcs| == k && Loaded(ss[|es|], w, |wasted|, n)
    {
      ss, es := LoadNext(max, ss, es, w, |wasted|, n);
    }
    for w := 0 to k
      invariant Run(max, ss, es) && Init(ss[0]) && |ss[0].pcs| == |ss[|es|].pcs| == k && Fired(ss[|es|], w, |wasted|, n)
    {
      ss, es := FireNext(max, ss, es, w, |wasted|, n);
    }
  }

  /** What the idempotency check promises: while no acknowledgement is lost,
      no notification is delivered twice. */
  ghost predicate AtMostOnce(max: int, k: nat) {
    forall ss: seq<State>, es, n |
        Run(max, ss, es) && Init(ss[0]) && |ss[0].pcs| == k &&
        LostFor(ss[|es|], n) == {} && AbandonedFor(ss[|es|], n) == {} ::
      Sends(ss[|es|].sends, n) <= 1
  }

  /** The promise is kept exactly when a single worker processes messages. */
  lemma AtMostOnceIff(max: int, k: nat)
    requires max >= 1
    ensures AtMostOnce(max, k) <==> k <= 1
  {
    if k <= 1 {
      forall ss: seq<State>, es, n | Run(max, ss, es) && Init(ss[0]) && |ss[0].pcs| == k &&
          LostFor(ss[|es|], n) == {} && AbandonedFor(ss[|es|], n) == {}
        ensures Sends(ss[|es|].sends, n) <= 1
      {
        DeliveryBound(max, ss, es, |es|, n);
      }
    } else {
      var ss, es := BoundIsAttained(max, k, [], "n");
      assert Unconfirmed(ss[|es|], "n") == {};
      assert Sends(ss[|es|].sends, "n") > 1;
    }
  }
}
