/** Worker.process as K workers run it against one delivery_logs table. Each
    database statement and each Send is one step; messages may be redelivered,
    workers may crash anywhere, and a statement whose caller is gone may still
    be applied, or dropped, at any later time. */
module Delivery {
  import opened Domain
  import opened Store

  type Worker = nat

  /** The program counter of one worker. From Inserting on, the invocation is
      past the idempotency check and holds the id of its log row. */
  datatype Pc =
    | Idle
    | Checking(n: Id)
    | Inserting(n: Id, row: Id)
    | Sending(n: Id, row: Id, attempt: int)
    | BackingOff(n: Id, row: Id, attempt: int)
    | Acking(n: Id, row: Id)
    | Failing(n: Id, row: Id, errMsg: string)

  /** A statement in flight whose caller no longer waits for it. */
  datatype Late = LateInsert(log: DeliveryLog) | LateSent(n: Id) | LateFailed(n: Id, errMsg: string)

  /** A Send that returned nil: the row it was made under. */
  datatype Delivered = Delivered(row: Id, n: Id)

  datatype State = State(
    logs: Logs,
    pcs: seq<Pc>,
    late: map<Id, Late>,
    sends: seq<Delivered>,      // history: successful Sends, in order
    used: set<Id>,           // history: log ids drawn so far
    lost: set<Id>,           // history: rows whose 'sent' update never applied
    stuck: set<Id>,          // history: pending rows nobody will update
    abandoned: set<Id>)      // history: rows whose 'sent' update was left in flight

  datatype Event =
    | Receive(w: Worker, n: Id)
    | Check(w: Worker, fault: Fault, drawn: Id)
    | Insert(w: Worker, fault: Fault, channel: Channel, at: int)
    | SendOk(w: Worker)
    | SendErr(w: Worker, err: string)
    | Timer(w: Worker)
    | Cancel(w: Worker, err: string)
    | Update(w: Worker, fault: Fault)
    | Crash(w: Worker, applied: bool, channel: Channel, at: int)
    | Abandon(w: Worker, channel: Channel, at: int)
    | LateApply(row: Id)
    | LateDrop(row: Id)

  predicate PastCheck(pc: Pc) {
    !pc.Idle? && !pc.Checking?
  }

  /** The row of this invocation exists and is still pending. */
  predicate Persisted(pc: Pc) {
    PastCheck(pc) && !pc.Inserting?
  }

  function NewLog(pc: Pc, channel: Channel, at: int): DeliveryLog
    requires PastCheck(pc)
  {
    DeliveryLog(pc.row, pc.n, channel, 1, Pending, "", at)
  }

  /** The statement the worker is waiting for, were it to be applied. */
  function Applied(logs: Logs, pc: Pc, channel: Channel, at: int): Logs {
    match pc
    case Inserting(_, row) => logs[row := NewLog(pc, channel, at)]
    case Acking(_, row) => Updated(logs, row, Status.Sent, "")
    case Failing(_, row, errMsg) => Updated(logs, row, Failed, errMsg)
    case _ => logs
  }

  /** The statement the worker leaves in flight when it stops waiting. */
  function Orphan(pc: Pc, channel: Channel, at: int): Late
    requires PastCheck(pc)
  {
    if pc.Inserting? then LateInsert(NewLog(pc, channel, at))
    else if pc.Failing? then LateFailed(pc.n, pc.errMsg)
    else LateSent(pc.n)
  }

  function AppliedLate(logs: Logs, row: Id, late: Late): Logs {
    match late
    case LateInsert(log) => logs[row := log]
    case LateSent(_) => Updated(logs, row, Status.Sent, "")
    case LateFailed(_, errMsg) => Updated(logs, row, Failed, errMsg)
  }

  predicate Enabled(maxAttempts: int, s: State, e: Event) {
    match e
    case LateApply(row) => row in s.late
    case LateDrop(row) => row in s.late
    case _ =>
      && e.w < |s.pcs|
      && var pc := s.pcs[e.w];
         match e
         case Receive(_, _) => pc.Idle?
         case Check(_, _, drawn) => pc.Checking? && drawn !in s.used
         case Insert(_, _, _, _) => pc.Inserting?
         case SendOk(_) => pc.Sending?
         case SendErr(_, _) => pc.Sending?
         case Timer(_) => pc.BackingOff?
         case Cancel(_, _) => pc.BackingOff?
         case Update(_, _) => pc.Acking? || pc.Failing?
         case Crash(_, applied, _, _) => !pc.Idle? && (applied ==> pc.Inserting? || pc.Acking? || pc.Failing?)
         case Abandon(_, _, _) => pc.Inserting? || pc.Acking? || pc.Failing?
         case _ => false
  }

  function Goto(s: State, w: Worker, pc: Pc): State
    requires w < |s.pcs|
  {
    s.(pcs := s.pcs[w := pc])
  }

  /** The invocation ends without its statement having been applied. */
  function Leave(s: State, w: Worker): State
    requires w < |s.pcs|
  {
    var pc := s.pcs[w];
    Goto(s, w, Idle).(
      stuck := if Persisted(pc) then s.stuck + {pc.row} else s.stuck,
      lost := if pc.Acking? then s.lost + {pc.row} else s.lost)
  }

  /** The invocation ends with its statement applied. */
  function LeaveApplied(s: State, w: Worker, channel: Channel, at: int): State
    requires w < |s.pcs|
  {
    var pc := s.pcs[w];
    Goto(s, w, Idle).(
      logs := Applied(s.logs, pc, channel, at),
      stuck := if pc.Inserting? then s.stuck + {pc.row} else s.stuck)
  }

  function Step(maxAttempts: int, s: State, e: Event): State
    requires Enabled(maxAttempts, s, e)
  {
    match e
    case Receive(w, n) => Goto(s, w, Checking(n))
    case Check(w, fault, drawn) =>
      var n := s.pcs[w].n;
      if !fault.Fine? || SentExists(s.logs, n) then Goto(s, w, Idle)
      else Goto(s, w, Inserting(n, drawn)).(used := s.used + {drawn})
    case Insert(w, fault, channel, at) =>
      var pc := s.pcs[w];
      if fault.Fine? then
        Goto(s, w, if maxAttempts >= 1 then Sending(pc.n, pc.row, 1) else Failing(pc.n, pc.row, "max retries exceeded"))
        .(logs := Applied(s.logs, pc, channel, at))
      else if fault.Applied() then LeaveApplied(s, w, channel, at)
      else Leave(s, w)
    case SendOk(w) =>
      var pc := s.pcs[w];
      Goto(s, w, Acking(pc.n, pc.row)).(sends := s.sends + [Delivered(pc.row, pc.n)])
    case SendErr(w, err) =>
      var pc := s.pcs[w];
      Goto(s, w, if pc.attempt >= maxAttempts then Failing(pc.n, pc.row, err) else BackingOff(pc.n, pc.row, pc.attempt))
    case Timer(w) =>
      var pc := s.pcs[w];
      Goto(s, w, Sending(pc.n, pc.row, pc.attempt + 1))
    case Cancel(w, err) =>
      var pc := s.pcs[w];
      Goto(s, w, Failing(pc.n, pc.row, err))
    case Update(w, fault) =>
      if fault.Applied() then LeaveApplied(s, w, IOS, 0) else Leave(s, w)
    case Crash(w, applied, channel, at) =>
      if applied then LeaveApplied(s, w, channel, at) else Leave(s, w)
    case Abandon(w, channel, at) =>
      var pc := s.pcs[w];
      Goto(s, w, Idle).(
        late := s.late[pc.row := Orphan(pc, channel, at)],
        abandoned := if pc.Acking? then s.abandoned + {pc.row} else s.abandoned)
    case LateApply(row) =>
      s.(late := s.late - {row},
         logs := AppliedLate(s.logs, row, s.late[row]),
         stuck := if s.late[row].LateInsert? then s.stuck + {row} else s.stuck)
    case LateDrop(row) =>
      s.(late := s.late - {row},
         stuck := if s.late[row].LateInsert? then s.stuck else s.stuck + {row},
         lost := if s.late[row].LateSent? then s.lost + {row} else s.lost)
  }

  ghost predicate Next(maxAttempts: int, s: State, e: Event, t: State) {
    Enabled(maxAttempts, s, e) && t == Step(maxAttempts, s, e)
  }

  ghost predicate Init(s: State) {
    && s.logs == map[] && s.late == map[] && s.sends == [] && s.used == {}
    && s.lost == {} && s.stuck == {} && s.abandoned == {}
    && forall w :: 0 <= w < |s.pcs| ==> s.pcs[w] == Idle
  }

  ghost predicate StepAt(maxAttempts: int, ss: seq<State>, es: seq<Event>, i: int)
    requires 0 <= i < |es| < |ss|
  {
    Next(maxAttempts, ss[i], es[i], ss[i + 1])
  }

  ghost predicate Run(maxAttempts: int, ss: seq<State>, es: seq<Event>) {
    |ss| == |es| + 1 && forall i :: 0 <= i < |es| ==> StepAt(maxAttempts, ss, es, i)
  }

  lemma Extend(max: int, ss: seq<State>, es: seq<Event>, e: Event) returns (ss': seq<State>, es': seq<Event>, t: State)
    requires Run(max, ss, es) && Enabled(max, ss[|es|], e)
    ensures t == Step(max, ss[|es|], e)
    ensures ss' == ss + [t] && es' == es + [e] && Run(max, ss', es')
  {
    t := Step(max, ss[|es|], e);
    ss', es' := ss + [t], es + [e];
    forall i | 0 <= i < |es'| ensures StepAt(max, ss', es', i) {
      if i < |es| {
        assert StepAt(max, ss, es, i);
      }
    }
  }

  // ---------------------------------------------------------------------
  // The invariant: every log id has exactly one keeper
  // ---------------------------------------------------------------------

  ghost function DeliveredRows(s: State): set<Id> {
    set d | d in s.sends :: d.row
  }

  predicate PendingFor(s: State, row: Id, n: Id) {
    row in s.logs && s.logs[row].notificationId == n && s.logs[row].status.Pending?
  }

  /** A worker past the check alone holds its row, which is pending from the
      insert on and has been delivered exactly when the update is due. */
  ghost predicate WorkerHolds(s: State, pc: Pc) {
    PastCheck(pc) ==>
      && pc.row in s.used && pc.row !in s.late && pc.row !in s.stuck && pc.row !in s.abandoned
      && (pc.Inserting? ==> pc.row !in s.logs)
      && (Persisted(pc) ==> PendingFor(s, pc.row, pc.n))
      && (pc.row in DeliveredRows(s) <==> pc.Acking?)
  }

  ghost predicate WorkersHold(s: State) {
    && (forall w :: 0 <= w < |s.pcs| ==> WorkerHolds(s, s.pcs[w]))
    && (forall v, w :: 0 <= v < w < |s.pcs| && PastCheck(s.pcs[v]) && PastCheck(s.pcs[w]) ==> s.pcs[v].row != s.pcs[w].row)
  }

  ghost predicate LateHolds(s: State) {
    forall row :: row in s.late ==>
      && row in s.used && row !in s.stuck
      && (row in DeliveredRows(s) <==> s.late[row].LateSent?)
      && (row in s.abandoned <==> s.late[row].LateSent?)
      && (s.late[row].LateInsert? ==>
            row !in s.logs && s.late[row].log.id == row && s.late[row].log.status.Pending?)
      && (!s.late[row].LateInsert? ==> PendingFor(s, row, s.late[row].n))
  }

  ghost predicate StuckHolds(s: State) {
    && s.lost <= s.stuck <= s.used && s.abandoned <= s.logs.Keys
    && (forall row :: row in s.stuck ==>
          row in s.logs && s.logs[row].status.Pending? && (row in DeliveredRows(s) <==> row in s.lost))
  }

  /** The worker, if any, whose invocation owns the row. */
  ghost predicate HeldBy(s: State, w: int, row: Id) {
    0 <= w < |s.pcs| && Persisted(s.pcs[w]) && s.pcs[w].row == row
  }

  ghost predicate LogsHold(s: State) {
    forall row :: row in s.logs ==>
      && row in s.used && s.logs[row].id == row
      && (s.logs[row].status.Sent? ==> row in DeliveredRows(s))
      && (s.logs[row].status.Failed? ==> row !in DeliveredRows(s))
      && (s.logs[row].status.Pending? ==> row in s.stuck || row in s.late || exists w :: HeldBy(s, w, row))
  }

  ghost predicate SendsHold(s: State) {
    && (forall i :: 0 <= i < |s.sends| ==>
          s.sends[i].row in s.logs && s.logs[s.sends[i].row].notificationId == s.sends[i].n)
    && (forall i, j :: 0 <= i < j < |s.sends| ==> s.sends[i].row != s.sends[j].row)
  }

  ghost predicate Inv(s: State) {
    WorkersHold(s) && LateHolds(s) && StuckHolds(s) && LogsHold(s) && SendsHold(s)
  }

  lemma DeliveredGrows(s: State, t: State, d: Delivered)
    requires t.sends == s.sends + [d]
    ensures DeliveredRows(t) == DeliveredRows(s) + {d.row}
  {
  }

  lemma SameSends(s: State, t: State)
    requires t.sends == s.sends
    ensures DeliveredRows(t) == DeliveredRows(s)
  {
  }

  lemma UndeliveredHasNoSend(s: State, row: Id)
    requires row !in DeliveredRows(s)
    ensures forall i :: 0 <= i < |s.sends| ==> s.sends[i].row != row
  {
  }

  /** Steps that only move one worker between phases of the same kind. */
  lemma MovingKeepsInv(s: State, w: Worker, pc: Pc)
    requires Inv(s) && w < |s.pcs|
    requires (!PastCheck(s.pcs[w]) && !PastCheck(pc)) ||
             (Persisted(s.pcs[w]) && Persisted(pc) && pc.row == s.pcs[w].row && pc.n == s.pcs[w].n
              && (s.pcs[w].Acking? <==> pc.Acking?))
    ensures Inv(Goto(s, w, pc))
  {
    var t := Goto(s, w, pc);
    SameSends(s, t);
    forall row | row in t.logs && t.logs[row].status.Pending?
      ensures row in t.stuck || row in t.late || exists v :: HeldBy(t, v, row)
    {
      if v :| HeldBy(s, v, row) {
        assert HeldBy(t, v, row);
      }
    }
  }

  lemma DrawingKeepsInv(s: State, w: Worker, row: Id)
    requires Inv(s) && w < |s.pcs| && s.pcs[w].Checking? && row !in s.used
    ensures Inv(Goto(s, w, Inserting(s.pcs[w].n, row)).(used := s.used + {row}))
  {
    var t := Goto(s, w, Inserting(s.pcs[w].n, row)).(used := s.used + {row});
    SameSends(s, t);
    forall id | id in t.logs && t.logs[id].status.Pending?
      ensures id in t.stuck || id in t.late || exists v :: HeldBy(t, v, id)
    {
      if v :| HeldBy(s, v, id) {
        assert HeldBy(t, v, id);
      }
    }
  }

  /** An insert that reports success. */
  lemma InsertingKeepsInv(s: State, w: Worker, pc: Pc, channel: Channel, at: int)
    requires Inv(s) && w < |s.pcs| && s.pcs[w].Inserting?
    requires Persisted(pc) && !pc.Acking? && pc.row == s.pcs[w].row && pc.n == s.pcs[w].n
    ensures Inv(Goto(s, w, pc).(logs := Applied(s.logs, s.pcs[w], channel, at)))
  {
    var t := Goto(s, w, pc).(logs := Applied(s.logs, s.pcs[w], channel, at));
    SameSends(s, t);
    assert HeldBy(t, w, pc.row);
    forall id | id in t.logs && t.logs[id].status.Pending?
      ensures id in t.stuck || id in t.late || exists v :: HeldBy(t, v, id)
    {
      if id != pc.row {
        if v :| HeldBy(s, v, id) {
          assert HeldBy(t, v, id);
        }
      }
    }
  }

  lemma SendingKeepsInv(s: State, w: Worker)
    requires Inv(s) && w < |s.pcs| && s.pcs[w].Sending?
    ensures var pc := s.pcs[w];
            Inv(Goto(s, w, Acking(pc.n, pc.row)).(sends := s.sends + [Delivered(pc.row, pc.n)]))
  {
    var pc := s.pcs[w];
    var t := Goto(s, w, Acking(pc.n, pc.row)).(sends := s.sends + [Delivered(pc.row, pc.n)]);
    DeliveredGrows(s, t, Delivered(pc.row, pc.n));
    UndeliveredHasNoSend(s, pc.row);
    forall id | id in t.logs && t.logs[id].status.Pending?
      ensures id in t.stuck || id in t.late || exists v :: HeldBy(t, v, id)
    {
      if v :| HeldBy(s, v, id) {
        assert HeldBy(t, v, id);
      }
    }
  }

  lemma LeavingKeepsInv(s: State, w: Worker)
    requires Inv(s) && w < |s.pcs|
    ensures Inv(Leave(s, w))
  {
    var t := Leave(s, w);
    SameSends(s, t);
    forall id | id in t.logs && t.logs[id].status.Pending?
      ensures id in t.stuck || id in t.late || exists v :: HeldBy(t, v, id)
    {
      if v :| HeldBy(s, v, id) {
        if v != w {
          assert HeldBy(t, v, id);
        }
      }
    }
  }

  lemma LeavingAppliedKeepsLogs(s: State, w: Worker, channel: Channel, at: int)
    requires Inv(s) && w < |s.pcs| && (s.pcs[w].Inserting? || s.pcs[w].Acking? || s.pcs[w].Failing?)
    ensures LogsHold(LeaveApplied(s, w, channel, at))
  {
    var t := LeaveApplied(s, w, channel, at);
    SameSends(s, t);
    forall id | id in t.logs && t.logs[id].status.Pending?
      ensures id in t.stuck || id in t.late || exists v :: HeldBy(t, v, id)
    {
      if v :| HeldBy(s, v, id) {
        if v != w {
          assert HeldBy(t, v, id);
        }
      }
    }
  }

  lemma LeavingAppliedKeepsWorkers(s: State, w: Worker, channel: Channel, at: int)
    requires Inv(s) && w < |s.pcs| && (s.pcs[w].Inserting? || s.pcs[w].Acking? || s.pcs[w].Failing?)
    ensures WorkersHold(LeaveApplied(s, w, channel, at)) && LateHolds(LeaveApplied(s, w, channel, at))
  {
    SameSends(s, LeaveApplied(s, w, channel, at));
  }

  lemma LeavingAppliedKeepsInv(s: State, w: Worker, channel: Channel, at: int)
    requires Inv(s) && w < |s.pcs| && (s.pcs[w].Inserting? || s.pcs[w].Acking? || s.pcs[w].Failing?)
    ensures Inv(LeaveApplied(s, w, channel, at))
  {
    SameSends(s, LeaveApplied(s, w, channel, at));
    LeavingAppliedKeepsWorkers(s, w, channel, at);
    LeavingAppliedKeepsLogs(s, w, channel, at);
  }

  lemma AbandoningKeepsLogs(maxAttempts: int, s: State, e: Event)
    requires Inv(s) && e.Abandon? && Enabled(maxAttempts, s, e)
    ensures LogsHold(Step(maxAttempts, s, e))
  {
    var t := Step(maxAttempts, s, e);
    SameSends(s, t);
    forall id | id in t.logs && t.logs[id].status.Pending?
      ensures id in t.stuck || id in t.late || exists v :: HeldBy(t, v, id)
    {
      if v :| HeldBy(s, v, id) {
        if v != e.w {
          assert HeldBy(t, v, id);
        }
      }
    }
  }

  lemma AbandoningKeepsInv(maxAttempts: int, s: State, e: Event)
    requires Inv(s) && e.Abandon? && Enabled(maxAttempts, s, e)
    ensures Inv(Step(maxAttempts, s, e))
  {
    SameSends(s, Step(maxAttempts, s, e));
    AbandoningKeepsLogs(maxAttempts, s, e);
  }

  lemma LateInsertKeepsInv(maxAttempts: int, s: State, row: Id)
    requires Inv(s) && row in s.late && s.late[row].LateInsert?
    ensures Inv(Step(maxAttempts, s, LateApply(row)))
  {
    var t := Step(maxAttempts, s, LateApply(row));
    SameSends(s, t);
    assert t.pcs == s.pcs && t.logs == s.logs[row := s.late[row].log];
    forall id | id in t.logs && t.logs[id].status.Pending?
      ensures id in t.stuck || id in t.late || exists v :: HeldBy(t, v, id)
    {
      if id != row {
        if v :| HeldBy(s, v, id) {
          assert HeldBy(t, v, id);
        }
      }
    }
  }

  lemma LateUpdateKeepsLogs(maxAttempts: int, s: State, row: Id)
    requires Inv(s) && row in s.late && !s.late[row].LateInsert?
    ensures LogsHold(Step(maxAttempts, s, LateApply(row)))
  {
    var t := Step(maxAttempts, s, LateApply(row));
    SameSends(s, t);
    assert t.pcs == s.pcs && t.stuck == s.stuck;
    forall id | id in t.logs && t.logs[id].status.Pending?
      ensures id in t.stuck || id in t.late || exists v :: HeldBy(t, v, id)
    {
      if v :| HeldBy(s, v, id) {
        assert HeldBy(t, v, id);
      }
    }
  }

  lemma LateUpdateKeepsInv(maxAttempts: int, s: State, row: Id)
    requires Inv(s) && row in s.late && !s.late[row].LateInsert?
    ensures Inv(Step(maxAttempts, s, LateApply(row)))
  {
    var t := Step(maxAttempts, s, LateApply(row));
    SameSends(s, t);
    assert t.pcs == s.pcs && t.stuck == s.stuck;
    LateUpdateKeepsLogs(maxAttempts, s, row);
  }

  lemma LateDropKeepsInv(maxAttempts: int, s: State, row: Id)
    requires Inv(s) && row in s.late
    ensures Inv(Step(maxAttempts, s, LateDrop(row)))
  {
    var t := Step(maxAttempts, s, LateDrop(row));
    SameSends(s, t);
    assert t.pcs == s.pcs;
    forall id | id in t.logs && t.logs[id].status.Pending?
      ensures id in t.stuck || id in t.late || exists v :: HeldBy(t, v, id)
    {
      if v :| HeldBy(s, v, id) {
        assert HeldBy(t, v, id);
      }
    }
  }

  lemma StepKeepsInv(maxAttempts: int, s: State, e: Event)
    requires Inv(s) && Enabled(maxAttempts, s, e)
    ensures Inv(Step(maxAttempts, s, e))
  {
    match e
    case Receive(w, n) => MovingKeepsInv(s, w, Checking(n));
    case Check(w, fault, drawn) =>
      if !fault.Fine? || SentExists(s.logs, s.pcs[w].n) {
        MovingKeepsInv(s, w, Idle);
      } else {
        DrawingKeepsInv(s, w, drawn);
      }
    case Insert(w, fault, channel, at) =>
      var pc := s.pcs[w];
      if fault.Fine? {
        InsertingKeepsInv(s, w, Step(maxAttempts, s, e).pcs[w], channel, at);
      } else if fault.Applied() {
        LeavingAppliedKeepsInv(s, w, channel, at);
      } else {
        LeavingKeepsInv(s, w);
      }
    case SendOk(w) => SendingKeepsInv(s, w);
    case SendErr(w, _) => MovingKeepsInv(s, w, Step(maxAttempts, s, e).pcs[w]);
    case Timer(w) => MovingKeepsInv(s, w, Step(maxAttempts, s, e).pcs[w]);
    case Cancel(w, _) => MovingKeepsInv(s, w, Step(maxAttempts, s, e).pcs[w]);
    case Update(w, fault) =>
      if fault.Applied() {
        LeavingAppliedKeepsInv(s, w, IOS, 0);
      } else {
        LeavingKeepsInv(s, w);
      }
    case Crash(w, applied, channel, at) =>
      if applied {
        LeavingAppliedKeepsInv(s, w, channel, at);
      } else {
        LeavingKeepsInv(s, w);
      }
    case Abandon(_, _, _) => AbandoningKeepsInv(maxAttempts, s, e);
    case LateApply(row) =>
      if s.late[row].LateInsert? {
        LateInsertKeepsInv(maxAttempts, s, row);
      } else {
        LateUpdateKeepsInv(maxAttempts, s, row);
      }
    case LateDrop(row) => LateDropKeepsInv(maxAttempts, s, row);
  }
}
