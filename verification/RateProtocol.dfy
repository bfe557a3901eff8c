/** Limiter.Allow as concurrent callers run it: INCR and EXPIRE are two Redis
    commands with anything in between. One rate key is watched; every other key
    of the keyspace may change at any time. Time is in milliseconds. */
module RateProtocol {
  import opened Domain
  import opened Redis
  import opened Sets

  type CallId = nat

  datatype Params = Params(key: string, limit: int64, window: int)

  /** One period during which the key exists. `calls`, `allowed` and `clean`
      record how many INCRs reached it, how many calls it answered (true, nil),
      and whether none of its calls met an error. */
  datatype Life = Life(start: int, calls: nat, allowed: nat, clean: bool)

  /** `pending` holds the calls that read 1 and have still to send EXPIRE, with
      the life they created; `lives` is the history of the key. */
  datatype State = State(keys: Keyspace, now: int, pending: map<CallId, nat>, lives: seq<Life>)

  datatype Event =
    | Tick(ms: nat)
    | Incr(call: CallId, fault: Fault)
    | Expire(call: CallId, fault: Fault)
    | Abandon(call: CallId)
    | Foreign(key: string, entry: Option<Entry>)

  /** What Allow returns: the boolean, and whether the error is non-nil. */
  datatype Verdict = Verdict(allowed: bool, failed: bool)

  predicate Enabled(p: Params, s: State, e: Event) {
    match e
    case Tick(_) => true
    case Incr(c, _) => c !in s.pending
    case Expire(c, _) => c in s.pending
    case Abandon(c) => c in s.pending
    case Foreign(k, _) => k != p.key
  }

  /** The verdict with which a call ends at this event, if it ends here. */
  function Returns(p: Params, s: State, e: Event): Option<Verdict> {
    match e
    case Incr(_, fault) =>
      var reply := IncrReply(s.keys, s.now, p.key);
      if !fault.Fine? || reply.None? then Some(Verdict(true, true))
      else if reply.value == 1 then None
      else Some(Verdict(reply.value <= p.limit, false))
    case Expire(_, fault) =>
      if fault.Fine? then Some(Verdict(1 <= p.limit, false)) else Some(Verdict(true, true))
    case _ => None
  }

  /** The call ends here with (true, nil). */
  predicate Allows(p: Params, s: State, e: Event) {
    Returns(p, s, e) == Some(Verdict(true, false))
  }

  /** History: an applied INCR opens a life or joins the current one. */
  function Count(p: Params, s: State, e: Event): seq<Life>
    requires e.Incr?
  {
    var reply := IncrReply(s.keys, s.now, p.key);
    if !e.fault.Applied() || reply.None? then s.lives
    else
      var n, fine := |s.lives|, e.fault.Fine?;
      if !Live(s.keys, s.now, p.key) || n == 0 then s.lives + [Life(s.now, 1, 0, fine)]
      else
        var l := s.lives[n - 1];
        var a := if Allows(p, s, e) then 1 else 0;
        s.lives[n - 1 := Life(l.start, l.calls + 1, l.allowed + a, l.clean && fine)]
  }

  /** History: the call that opened the current life ends. */
  function Settle(p: Params, s: State, e: Event): seq<Life> {
    if s.lives == [] then []
    else
      var n := |s.lives|;
      var l := s.lives[n - 1];
      var a := if Allows(p, s, e) then 1 else 0;
      s.lives[n - 1 := Life(l.start, l.calls, l.allowed + a, l.clean && e.Expire? && e.fault.Fine?)]
  }

  function Step(p: Params, s: State, e: Event): State {
    match e
    case Tick(ms) => s.(now := s.now + ms)
    case Incr(c, fault) =>
      var lives := Count(p, s, e);
      s.(keys := if fault.Applied() then AfterIncr(s.keys, s.now, p.key) else s.keys,
         lives := lives,
         pending := if fault.Fine? && IncrReply(s.keys, s.now, p.key) == Some(1) && lives != []
                    then s.pending[c := |lives| - 1] else s.pending)
    case Expire(c, fault) =>
      s.(keys := if fault.Applied() then AfterExpire(s.keys, s.now, p.key, p.window) else s.keys,
         pending := s.pending - {c},
         lives := Settle(p, s, e))
    case Abandon(c) => s.(pending := s.pending - {c}, lives := Settle(p, s, e))
    case Foreign(k, entry) =>
      s.(keys := match entry case None => s.keys - {k} case Some(x) => s.keys[k := x])
  }

  ghost predicate Next(p: Params, s: State, e: Event, t: State) {
    Enabled(p, s, e) && t == Step(p, s, e)
  }

  ghost predicate Init(p: Params, s: State) {
    p.window > 0 && p.key !in s.keys && s.pending == map[] && s.lives == []
  }

  ghost predicate Run(p: Params, ss: seq<State>, es: seq<Event>) {
    |ss| == |es| + 1 && forall i :: 0 <= i < |es| ==> Next(p, ss[i], es[i], ss[i + 1])
  }

  // ---------------------------------------------------------------------
  // The invariant of the INCR/EXPIRE pair
  // ---------------------------------------------------------------------

  function Cap(p: Params, calls: int): int {
    if p.limit <= 0 then 0 else if calls <= p.limit then calls else p.limit
  }

  /** Answers still owed to the call that has its EXPIRE outstanding. */
  function Owed(p: Params, s: State): int {
    if s.pending != map[] && p.limit >= 1 then 1 else 0
  }

  ghost predicate LivesApart(p: Params, s: State) {
    && (forall i, j :: 0 <= i < j < |s.lives| ==> s.lives[i].start + p.window <= s.lives[j].start)
    && (forall i :: 0 <= i < |s.lives| ==> s.lives[i].start <= s.now)
  }

  ghost predicate KeyMatchesLife(p: Params, s: State) {
    && (p.key in s.keys <==> s.lives != [])
    && (s.lives != [] ==>
          var l := s.lives[|s.lives| - 1];
          && s.keys[p.key].data == Counter(l.calls) && l.calls >= 1
          && (s.keys[p.key].deadline.Some? ==> l.start + p.window <= s.keys[p.key].deadline.value))
  }

  /** At most one EXPIRE is outstanding; it belongs to the current life, which
      has no deadline and so cannot end before that EXPIRE lands on it. */
  ghost predicate OneOutstanding(p: Params, s: State) {
    && (forall c, d :: c in s.pending && d in s.pending ==> c == d)
    && (forall c :: c in s.pending ==>
          && s.lives != [] && s.pending[c] == |s.lives| - 1
          && p.key in s.keys && s.keys[p.key].deadline.None?)
  }

  ghost predicate AnswersBounded(p: Params, s: State) {
    && (forall i :: 0 <= i < |s.lives| - 1 ==>
          && s.lives[i].allowed <= Cap(p, s.lives[i].calls)
          && (s.lives[i].clean ==> s.lives[i].allowed == Cap(p, s.lives[i].calls)))
    && (s.lives != [] ==>
          var l := s.lives[|s.lives| - 1];
          && l.allowed + Owed(p, s) <= Cap(p, l.calls)
          && (l.clean ==> l.allowed + Owed(p, s) == Cap(p, l.calls)))
  }

  ghost predicate Inv(p: Params, s: State) {
    p.window > 0 && LivesApart(p, s) && KeyMatchesLife(p, s) && OneOutstanding(p, s) && AnswersBounded(p, s)
  }

  lemma IncrReplyFacts(p: Params, s: State)
    requires Inv(p, s)
    ensures Live(s.keys, s.now, p.key) ==> s.lives != []
    ensures var reply := IncrReply(s.keys, s.now, p.key);
            reply.Some? ==> reply.value == if Live(s.keys, s.now, p.key) then s.lives[|s.lives| - 1].calls + 1 else 1
    ensures !Live(s.keys, s.now, p.key) ==> s.pending == map[]
    ensures !Live(s.keys, s.now, p.key) && s.lives != [] ==>
              s.lives[|s.lives| - 1].start + p.window <= s.now
  {
  }

  /** An applied INCR that finds no live key opens a life. */
  lemma OpeningKeepsInv(p: Params, s: State, e: Event)
    requires Inv(p, s) && e.Incr? && Enabled(p, s, e)
    requires e.fault.Applied() && !Live(s.keys, s.now, p.key)
    ensures Inv(p, Step(p, s, e))
  {
    IncrReplyFacts(p, s);
  }

  /** An applied INCR that finds the key live joins the current life. */
  lemma JoiningKeepsInv(p: Params, s: State, e: Event)
    requires Inv(p, s) && e.Incr? && Enabled(p, s, e)
    requires e.fault.Applied() && Live(s.keys, s.now, p.key)
    ensures Inv(p, Step(p, s, e))
  {
    IncrReplyFacts(p, s);
  }

  lemma IncrKeepsInv(p: Params, s: State, e: Event)
    requires Inv(p, s) && e.Incr? && Enabled(p, s, e)
    ensures Inv(p, Step(p, s, e))
  {
    if !e.fault.Applied() {
      assert Step(p, s, e) == s;
    } else if Live(s.keys, s.now, p.key) {
      JoiningKeepsInv(p, s, e);
    } else {
      OpeningKeepsInv(p, s, e);
    }
  }

  lemma ExpireKeepsInv(p: Params, s: State, e: Event)
    requires Inv(p, s) && (e.Expire? || e.Abandon?) && Enabled(p, s, e)
    ensures Inv(p, Step(p, s, e))
  {
  }

  lemma StepKeepsInv(p: Params, s: State, e: Event)
    requires Inv(p, s) && Enabled(p, s, e)
    ensures Inv(p, Step(p, s, e))
  {
    match e
    case Incr(_, _) => IncrKeepsInv(p, s, e);
    case Expire(_, _) => ExpireKeepsInv(p, s, e);
    case Abandon(_) => ExpireKeepsInv(p, s, e);
    case Tick(_) =>
    case Foreign(_, _) =>
  }

  /** In every reachable state each key has at most one outstanding EXPIRE, on
      its current lifetime, which is then live without a deadline; and
      successive lifetimes start at least one window apart. */
  lemma {:induction false} ProtocolInvariant(p: Params, ss: seq<State>, es: seq<Event>, n: nat)
    requires Run(p, ss, es) && Init(p, ss[0]) && n <= |es|
    ensures Inv(p, ss[n])
  {
    if n == 0 {
    } else {
      ProtocolInvariant(p, ss, es, n - 1);
      assert Next(p, ss[n - 1], es[n - 1], ss[n]);
      StepKeepsInv(p, ss[n - 1], es[n - 1]);
    }
  }

  // ---------------------------------------------------------------------
  // How a later state relates to an earlier one
  // ---------------------------------------------------------------------

  ghost predicate Later(p: Params, s: State, t: State) {
    && s.now <= t.now && |s.lives| <= |t.lives|
    && (forall i :: 0 <= i < |s.lives| ==> s.lives[i].start == t.lives[i].start)
    && (s.lives != [] && |s.lives| == |t.lives| && p.key in s.keys && p.key in t.keys ==>
          && s.lives[|s.lives| - 1].calls <= t.lives[|t.lives| - 1].calls
          && (s.keys[p.key].deadline.Some? ==> t.keys[p.key].deadline == s.keys[p.key].deadline)
          && (Live(s.keys, s.now, p.key) && t.keys[p.key].deadline.Some? ==>
                s.now < t.keys[p.key].deadline.value))
    && (p.key in s.keys && |s.lives| < |t.lives| ==>
          && (Live(s.keys, s.now, p.key) ==> s.now < t.lives[|s.lives|].start)
          && (s.keys[p.key].deadline.Some? ==> s.keys[p.key].deadline.value <= t.lives[|s.lives|].start))
  }

  /** One step keeps the history, and opens a life only over a dead key. */
  ghost predicate StepShape(p: Params, t: State, u: State) {
    && t.now <= u.now && |t.lives| <= |u.lives| <= |t.lives| + 1
    && (forall i :: 0 <= i < |t.lives| ==> t.lives[i].start == u.lives[i].start)
    && (|u.lives| > |t.lives| ==> !Live(t.keys, t.now, p.key) && u.lives[|t.lives|].start == t.now)
    && (t.lives != [] && |u.lives| == |t.lives| && p.key in t.keys && p.key in u.keys ==>
          && t.lives[|t.lives| - 1].calls <= u.lives[|t.lives| - 1].calls
          && (t.keys[p.key].deadline.Some? ==> u.keys[p.key].deadline == t.keys[p.key].deadline)
          && (t.keys[p.key].deadline.None? && u.keys[p.key].deadline.Some? ==>
                u.keys[p.key].deadline.value > t.now))
  }

  lemma EachStepHasShape(p: Params, t: State, e: Event)
    requires Inv(p, t) && Enabled(p, t, e)
    ensures StepShape(p, t, Step(p, t, e))
  {
  }

  lemma LaterStep(p: Params, s: State, t: State, u: State)
    requires Inv(p, s) && Inv(p, t) && Inv(p, u) && Later(p, s, t) && StepShape(p, t, u)
    ensures Later(p, s, u)
  {
  }

  lemma {:induction false} RunIsLater(p: Params, ss: seq<State>, es: seq<Event>, m: nat, n: nat)
    requires Run(p, ss, es) && Init(p, ss[0]) && m <= n <= |es|
    ensures Inv(p, ss[m]) && Inv(p, ss[n]) && Later(p, ss[m], ss[n])
  {
    ProtocolInvariant(p, ss, es, m);
    ProtocolInvariant(p, ss, es, n);
    if m == n {
    } else {
      RunIsLater(p, ss, es, m, n - 1);
      assert Next(p, ss[n - 1], es[n - 1], ss[n]);
      EachStepHasShape(p, ss[n - 1], es[n - 1]);
      LaterStep(p, ss[m], ss[n - 1], ss[n]);
    }
  }

  // ---------------------------------------------------------------------
  // The bound over any interval
  // ---------------------------------------------------------------------

  /** The events of a run at which a call ends with (true, nil) at a time in
      [from, from + window). */
  ghost function AllowedWithin(p: Params, ss: seq<State>, es: seq<Event>, from: int): set<int>
    requires Run(p, ss, es)
  {
    set i | 0 <= i < |es| && Allows(p, ss[i], es[i]) && from <= ss[i].now < from + p.window
  }

  /** The life whose counter answered at event i, and the count it gave. */
  ghost function LifeAt(ss: seq<State>, i: int): int
    requires 0 <= i < |ss| - 1
  {
    |ss[i + 1].lives| - 1
  }

  ghost function CountAt(p: Params, ss: seq<State>, es: seq<Event>, i: int): int
    requires 0 <= i < |es| < |ss|
  {
    if es[i].Incr? then
      var reply := IncrReply(ss[i].keys, ss[i].now, p.key);
      if reply.Some? then reply.value else 0
    else 1
  }

  lemma AnswerFacts(p: Params, ss: seq<State>, es: seq<Event>, i: nat)
    requires Run(p, ss, es) && Init(p, ss[0]) && i < |es| && Allows(p, ss[i], es[i])
    ensures LifeAt(ss, i) >= 0 && |ss[i].lives| == |ss[i + 1].lives|
    ensures 1 <= CountAt(p, ss, es, i) <= p.limit
    ensures es[i].Incr? ==> CountAt(p, ss, es, i) >= 2
    ensures p.key in ss[i + 1].keys && Live(ss[i + 1].keys, ss[i].now, p.key) && ss[i + 1].now == ss[i].now
    ensures es[i].Incr? ==> ss[i + 1].lives[LifeAt(ss, i)].calls == CountAt(p, ss, es, i)
    ensures es[i].Incr? ==> ss[i].lives[LifeAt(ss, i)].calls == CountAt(p, ss, es, i) - 1
    ensures es[i].Expire? ==> ss[i + 1].keys[p.key].deadline == Some(ss[i].now + p.window)
    ensures es[i].Expire? ==> ss[i].keys[p.key].deadline.None?
    ensures es[i].Incr? || es[i].Expire?
  {
    ProtocolInvariant(p, ss, es, i);
    ProtocolInvariant(p, ss, es, i + 1);
    assert Next(p, ss[i], es[i], ss[i + 1]);
  }

  /** No two answers of one life carry the same count. */
  lemma AnswersDiffer(p: Params, ss: seq<State>, es: seq<Event>, i: nat, j: nat)
    requires Run(p, ss, es) && Init(p, ss[0]) && i < j < |es|
    requires Allows(p, ss[i], es[i]) && Allows(p, ss[j], es[j])
    ensures LifeAt(ss, i) <= LifeAt(ss, j)
    ensures LifeAt(ss, i) == LifeAt(ss, j) ==> CountAt(p, ss, es, i) != CountAt(p, ss, es, j)
  {
    AnswerFacts(p, ss, es, i);
    AnswerFacts(p, ss, es, j);
    RunIsLater(p, ss, es, i + 1, j);
  }

  /** A later life begins after every answer of an earlier one, and a window
      after the one that set the deadline. */
  lemma NextLifeIsLater(p: Params, ss: seq<State>, es: seq<Event>, i: nat, j: nat)
    requires Run(p, ss, es) && Init(p, ss[0]) && i < |es| && j < |es|
    requires Allows(p, ss[i], es[i]) && Allows(p, ss[j], es[j])
    requires LifeAt(ss, i) < LifeAt(ss, j)
    ensures i < j
    ensures var next := ss[j + 1].lives[LifeAt(ss, i) + 1].start;
            && ss[i].now < next
            && (es[i].Expire? ==> ss[i].now + p.window <= next)
            && (LifeAt(ss, i) + 1 < LifeAt(ss, j) ==> next + p.window <= ss[j].now)
            && next <= ss[j].now
  {
    if j < i {
      AnswersDiffer(p, ss, es, j, i);
    }
    AnswerFacts(p, ss, es, i);
    AnswerFacts(p, ss, es, j);
    RunIsLater(p, ss, es, i + 1, j + 1);
  }

  /** In an interval every answer has a life and a count within the limit, and
      no two answers share both. */
  lemma AnswersNumbered(p: Params, ss: seq<State>, es: seq<Event>, from: int)
    requires Run(p, ss, es) && Init(p, ss[0])
    ensures forall i :: i in AllowedWithin(p, ss, es, from) ==>
              LifeAt(ss, i) >= 0 && 1 <= CountAt(p, ss, es, i) <= p.limit
    ensures forall i, j :: i in AllowedWithin(p, ss, es, from) && j in AllowedWithin(p, ss, es, from) && i != j ==>
              LifeAt(ss, i) != LifeAt(ss, j) || CountAt(p, ss, es, i) != CountAt(p, ss, es, j)
  {
    var f := AllowedWithin(p, ss, es, from);
    forall i | i in f
      ensures LifeAt(ss, i) >= 0 && 1 <= CountAt(p, ss, es, i) <= p.limit
    {
      AnswerFacts(p, ss, es, i);
    }
    forall i, j | i in f && j in f && i != j
      ensures LifeAt(ss, i) != LifeAt(ss, j) || CountAt(p, ss, es, i) != CountAt(p, ss, es, j)
    {
      if i < j {
        AnswersDiffer(p, ss, es, i, j);
      } else {
        AnswersDiffer(p, ss, es, j, i);
      }
    }
  }

  /** Two lives share 2*limit - 1 numbers: the older one's first is not used. */
  lemma TwoLivesBound(p: Params, ss: seq<State>, es: seq<Event>, from: int, a: int, b: int)
    requires Run(p, ss, es) && Init(p, ss[0])
    requires a in AllowedWithin(p, ss, es, from) && b in AllowedWithin(p, ss, es, from)
    requires LifeAt(ss, a) < LifeAt(ss, b)
    ensures |AllowedWithin(p, ss, es, from)| <= 2 * p.limit - 1
  {
    AnswersNumbered(p, ss, es, from);
    TwoLives(p, ss, es, from, a, b);
    var older := LifeAt(ss, a);
    var pos := (i: int) =>
      if !(0 <= i < |es| < |ss|) then 0
      else if LifeAt(ss, i) == older then CountAt(p, ss, es, i) - 2
      else p.limit - 2 + CountAt(p, ss, es, i);
    InjectiveBound(AllowedWithin(p, ss, es, from), pos, 2 * p.limit - 1);
  }

  lemma OneLifeBound(p: Params, ss: seq<State>, es: seq<Event>, from: int)
    requires Run(p, ss, es) && Init(p, ss[0]) && p.limit >= 0
    requires forall a, b :: a in AllowedWithin(p, ss, es, from) && b in AllowedWithin(p, ss, es, from) ==>
               LifeAt(ss, a) == LifeAt(ss, b)
    ensures |AllowedWithin(p, ss, es, from)| <= p.limit
  {
    AnswersNumbered(p, ss, es, from);
    var pos := (i: int) => if 0 <= i < |es| < |ss| then CountAt(p, ss, es, i) - 1 else 0;
    InjectiveBound(AllowedWithin(p, ss, es, from), pos, p.limit);
  }

  /** In any half-open interval of one window the error-free allowed calls on a
      key number at most 2*limit - 1, over every interleaving of the callers
      and however late an EXPIRE runs. */
  lemma WindowBound(p: Params, ss: seq<State>, es: seq<Event>, from: int)
    requires Run(p, ss, es) && Init(p, ss[0])
    ensures |AllowedWithin(p, ss, es, from)| <= if p.limit >= 1 then 2 * p.limit - 1 else 0
  {
    var f := AllowedWithin(p, ss, es, from);
    if a, b :| a in f && b in f && LifeAt(ss, a) < LifeAt(ss, b) {
      TwoLivesBound(p, ss, es, from, a, b);
      AnswersNumbered(p, ss, es, from);
    } else if f == {} {
    } else {
      AnswersNumbered(p, ss, es, from);
      OneLifeBound(p, ss, es, from);
    }
  }

  /** When an interval sees two lives it sees no third one, and the older has
      already given its first answer. */
  lemma TwoLives(p: Params, ss: seq<State>, es: seq<Event>, from: int, a: int, b: int)
    requires Run(p, ss, es) && Init(p, ss[0])
    requires a in AllowedWithin(p, ss, es, from) && b in AllowedWithin(p, ss, es, from)
    requires LifeAt(ss, a) < LifeAt(ss, b)
    ensures forall i :: i in AllowedWithin(p, ss, es, from) ==>
              LifeAt(ss, i) == LifeAt(ss, a) || LifeAt(ss, i) == LifeAt(ss, b)
    ensures forall i :: i in AllowedWithin(p, ss, es, from) && LifeAt(ss, i) == LifeAt(ss, a) ==>
              CountAt(p, ss, es, i) >= 2
  {
    forall i | i in AllowedWithin(p, ss, es, from)
      ensures LifeAt(ss, i) == LifeAt(ss, a) || LifeAt(ss, i) == LifeAt(ss, b)
      ensures LifeAt(ss, i) == LifeAt(ss, a) ==> CountAt(p, ss, es, i) >= 2
    {
      AnswerFacts(p, ss, es, i);
      NextLifeIsLater(p, ss, es, a, b);
      if LifeAt(ss, i) < LifeAt(ss, a) {
        NextLifeIsLater(p, ss, es, i, b);
      } else if LifeAt(ss, a) < LifeAt(ss, i) {
        NextLifeIsLater(p, ss, es, a, i);
      } else {
        NextLifeIsLater(p, ss, es, i, b);
      }
    }
  }

  // ---------------------------------------------------------------------
  // One lifetime
  // ---------------------------------------------------------------------

  /** The event is an INCR that reached the counter. */
  predicate Counts(p: Params, s: State, e: Event) {
    e.Incr? && e.fault.Applied() && IncrReply(s.keys, s.now, p.key).Some?
  }

  /** An applied command whose reply was lost, or an EXPIRE that never ran. */
  predicate Errs(e: Event) {
    match e
    case Incr(_, fault) => fault.LostReply?
    case Expire(_, fault) => !fault.Fine?
    case Abandon(_) => true
    case _ => false
  }

  ghost function AllowedInLife(p: Params, ss: seq<State>, es: seq<Event>, life: int, n: nat): set<int>
    requires n <= |es| < |ss|
  {
    set i | 0 <= i < n && Allows(p, ss[i], es[i]) && LifeAt(ss, i) == life
  }

  ghost function CallsInLife(p: Params, ss: seq<State>, es: seq<Event>, life: int, n: nat): set<int>
    requires n <= |es| < |ss|
  {
    set i | 0 <= i < n && Counts(p, ss[i], es[i]) && LifeAt(ss, i) == life
  }

  /** The history recorded for a life is what its events add up to. */
  lemma {:induction false} HistoryIsExact(p: Params, ss: seq<State>, es: seq<Event>, life: nat, n: nat)
    requires Run(p, ss, es) && Init(p, ss[0]) && n <= |es|
    ensures |AllowedInLife(p, ss, es, life, n)| == if life < |ss[n].lives| then ss[n].lives[life].allowed else 0
    ensures |CallsInLife(p, ss, es, life, n)| == if life < |ss[n].lives| then ss[n].lives[life].calls else 0
    ensures life < |ss[n].lives| && (forall i :: 0 <= i < n && LifeAt(ss, i) == life ==> !Errs(es[i])) ==>
              ss[n].lives[life].clean
  {
    if n == 0 {
      assert AllowedInLife(p, ss, es, life, 0) == {} && CallsInLife(p, ss, es, life, 0) == {};
    } else {
      var s, e := ss[n - 1], es[n - 1];
      HistoryIsExact(p, ss, es, life, n - 1);
      ProtocolInvariant(p, ss, es, n - 1);
      ProtocolInvariant(p, ss, es, n);
      assert Next(p, s, e, ss[n]);
      OneMoreAnswer(p, ss, es, life, n - 1);
      OneMoreCall(p, ss, es, life, n - 1);
      HistoryStep(p, s, e, life);
    }
  }

  lemma OneMoreAnswer(p: Params, ss: seq<State>, es: seq<Event>, life: nat, n: nat)
    requires n < |es| < |ss|
    ensures |AllowedInLife(p, ss, es, life, n + 1)| ==
            |AllowedInLife(p, ss, es, life, n)| + if Allows(p, ss[n], es[n]) && LifeAt(ss, n) == life then 1 else 0
  {
    var before := AllowedInLife(p, ss, es, life, n);
    if Allows(p, ss[n], es[n]) && LifeAt(ss, n) == life {
      assert AllowedInLife(p, ss, es, life, n + 1) == before + {n};
    } else {
      assert AllowedInLife(p, ss, es, life, n + 1) == before;
    }
  }

  lemma OneMoreCall(p: Params, ss: seq<State>, es: seq<Event>, life: nat, n: nat)
    requires n < |es| < |ss|
    ensures |CallsInLife(p, ss, es, life, n + 1)| ==
            |CallsInLife(p, ss, es, life, n)| + if Counts(p, ss[n], es[n]) && LifeAt(ss, n) == life then 1 else 0
  {
    var before := CallsInLife(p, ss, es, life, n);
    if Counts(p, ss[n], es[n]) && LifeAt(ss, n) == life {
      assert CallsInLife(p, ss, es, life, n + 1) == before + {n};
    } else {
      assert CallsInLife(p, ss, es, life, n + 1) == before;
    }
  }

  lemma HistoryStep(p: Params, s: State, e: Event, life: nat)
    requires Inv(p, s) && Enabled(p, s, e)
    ensures var t := Step(p, s, e);
            var current := |t.lives| - 1;
            var before := if life < |s.lives| then s.lives[life] else Life(0, 0, 0, true);
            && |s.lives| <= |t.lives|
            && (Allows(p, s, e) || Counts(p, s, e) ==> t.lives != [])
            && (life < |t.lives| ==>
                  && t.lives[life].allowed == before.allowed + (if Allows(p, s, e) && current == life then 1 else 0)
                  && t.lives[life].calls == before.calls + (if Counts(p, s, e) && current == life then 1 else 0)
                  && (before.clean && !(Errs(e) && current == life) ==> t.lives[life].clean))
  {
  }

  lemma LifeIsCapped(p: Params, s: State, life: nat)
    requires Inv(p, s) && life < |s.lives|
    ensures s.lives[life].allowed <= Cap(p, s.lives[life].calls)
    ensures s.lives[life].clean && (life < |s.lives| - 1 || s.pending == map[]) ==>
              s.lives[life].allowed == Cap(p, s.lives[life].calls)
  {
  }

  /** Within one lifetime of the key at most min(calls, limit) calls are
      allowed without error, and exactly that many when none met an error and
      the lifetime is over or has no call under way. */
  lemma LifetimeIsExact(p: Params, ss: seq<State>, es: seq<Event>, life: nat)
    requires Run(p, ss, es) && Init(p, ss[0]) && life < |ss[|es|].lives|
    ensures var n := |es|;
            var calls := |CallsInLife(p, ss, es, life, n)|;
            && |AllowedInLife(p, ss, es, life, n)| <= Cap(p, calls)
            && ((forall i :: 0 <= i < n && LifeAt(ss, i) == life ==> !Errs(es[i])) &&
                (life < |ss[n].lives| - 1 || ss[n].pending == map[]) ==>
                  |AllowedInLife(p, ss, es, life, n)| == Cap(p, calls))
  {
    HistoryIsExact(p, ss, es, life, |es|);
    assert Inv(p, ss[|es|]) by {
      ProtocolInvariant(p, ss, es, |es|);
    }
    LifeIsCapped(p, ss[|es|], life);
  }

  lemma LifetimeWithinLimit(p: Params, ss: seq<State>, es: seq<Event>, life: nat)
    requires Run(p, ss, es) && Init(p, ss[0]) && life < |ss[|es|].lives|
    ensures |AllowedInLife(p, ss, es, life, |es|)| <= if p.limit >= 1 then p.limit else 0
  {
    LifetimeIsExact(p, ss, es, life);
  }

  /** The key is live with no deadline and no EXPIRE is on its way. */
  ghost predicate Stuck(p: Params, s: State) {
    p.key in s.keys && s.keys[p.key].deadline.None? && s.pending == map[]
  }

  lemma {:induction false} StuckForever(p: Params, ss: seq<State>, es: seq<Event>, m: nat, n: nat)
    requires Run(p, ss, es) && Init(p, ss[0]) && m <= n <= |es| && Stuck(p, ss[m])
    ensures Stuck(p, ss[n]) && |ss[n].lives| == |ss[m].lives| > 0
  {
    ProtocolInvariant(p, ss, es, n);
    if m == n {
    } else {
      StuckForever(p, ss, es, m, n - 1);
      ProtocolInvariant(p, ss, es, n - 1);
      assert Next(p, ss[n - 1], es[n - 1], ss[n]);
      IncrReplyFacts(p, ss[n - 1]);
    }
  }

  lemma StuckAnswers(p: Params, ss: seq<State>, es: seq<Event>, m: nat, i: nat)
    requires Run(p, ss, es) && Init(p, ss[0]) && m <= i < |es| && Stuck(p, ss[m])
    ensures LifeAt(ss, i) == |ss[m].lives| - 1
  {
    StuckForever(p, ss, es, m, i + 1);
  }

  /** A key whose only EXPIRE was lost never gains a deadline: from then on,
      counting also what its life had already allowed, at most `limit` calls
      are ever allowed without error. */
  lemma LostExpireCapsForever(p: Params, ss: seq<State>, es: seq<Event>, m: nat)
    requires Run(p, ss, es) && Init(p, ss[0]) && m <= |es| && Stuck(p, ss[m])
    ensures var life := |ss[m].lives| - 1;
            && Stuck(p, ss[|es|]) && life >= 0
            && (forall i :: m <= i < |es| && Allows(p, ss[i], es[i]) ==> LifeAt(ss, i) == life)
            && |AllowedInLife(p, ss, es, life, |es|)| <= if p.limit >= 1 then p.limit else 0
  {
    StuckForever(p, ss, es, m, |es|);
    forall i | m <= i < |es| && Allows(p, ss[i], es[i])
      ensures LifeAt(ss, i) == |ss[m].lives| - 1
    {
      StuckAnswers(p, ss, es, m, i);
    }
    LifetimeWithinLimit(p, ss, es, |ss[m].lives| - 1);
  }

  // ---------------------------------------------------------------------
  // The bound is attained
  // ---------------------------------------------------------------------

  lemma Extend(p: Params, ss: seq<State>, es: seq<Event>, e: Event)
    requires Run(p, ss, es) && Enabled(p, ss[|es|], e)
    ensures Run(p, ss + [Step(p, ss[|es|], e)], es + [e])
  {
  }

  /** The key is live, has a deadline, and has answered n calls. */
  predicate Answered(p: Params, s: State, n: int) {
    && Live(s.keys, s.now, p.key) && s.keys[p.key].data == Counter(n) && s.keys[p.key].deadline.Some?
    && s.pending == map[] && s.lives != []
  }

  /** n further calls, all within the limit and at one instant. */
  lemma {:induction false} Burst(p: Params, ss: seq<State>, es: seq<Event>, calls: int, n: nat)
    returns (ss': seq<State>, es': seq<Event>)
    requires Run(p, ss, es) && Answered(p, ss[|es|], calls) && 1 <= calls && calls + n <= p.limit
    ensures Run(p, ss', es') && |es'| == |es| + n && ss <= ss' && es <= es'
    ensures Answered(p, ss'[|es'|], calls + n)
    ensures ss'[|es'|].keys[p.key].deadline == ss[|es|].keys[p.key].deadline
    ensures forall i :: |es| <= i < |es'| ==> Allows(p, ss'[i], es'[i]) && ss'[i].now == ss[|es|].now
    ensures ss'[|es'|].now == ss[|es|].now
  {
    if n == 0 {
      ss', es' := ss, es;
    } else {
      ss', es' := Burst(p, ss, es, calls, n - 1);
      Extend(p, ss', es', Incr(0, Fine));
      var s := ss'[|es'|];
      assert Allows(p, s, Incr(0, Fine));
      ss', es' := ss' + [Step(p, s, Incr(0, Fine))], es' + [Incr(0, Fine)];
    }
  }

  /** The first call of a life: INCR then EXPIRE. */
  lemma Open(p: Params, ss: seq<State>, es: seq<Event>) returns (ss': seq<State>, es': seq<Event>)
    requires Run(p, ss, es) && p.limit >= 1 && p.window > 0
    requires !Live(ss[|es|].keys, ss[|es|].now, p.key) && ss[|es|].pending == map[]
    ensures Run(p, ss', es') && |es'| == |es| + 2 && ss <= ss' && es <= es'
    ensures Answered(p, ss'[|es'|], 1)
    ensures ss'[|es'|].keys[p.key].deadline == Some(ss[|es|].now + p.window)
    ensures Allows(p, ss'[|es| + 1], es'[|es| + 1]) && ss'[|es| + 1].now == ss[|es|].now == ss'[|es'|].now
  {
    Extend(p, ss, es, Incr(0, Fine));
    ss', es' := ss + [Step(p, ss[|es|], Incr(0, Fine))], es + [Incr(0, Fine)];
    var s := ss'[|es'|];
    assert s.keys == ss[|es|].keys[p.key := Entry(Counter(1), None)];
    assert 0 in s.pending && s.lives != [];
    Extend(p, ss', es', Expire(0, Fine));
    ss', es' := ss' + [Step(p, s, Expire(0, Fine))], es' + [Expire(0, Fine)];
    assert ss'[|es'|].pending == map[];
  }

  lemma Wait(p: Params, ss: seq<State>, es: seq<Event>, ms: nat) returns (ss': seq<State>, es': seq<Event>)
    requires Run(p, ss, es)
    ensures Run(p, ss', es') && ss <= ss' && es <= es' && |es'| == |es| + 1
    ensures ss'[|es'|] == ss[|es|].(now := ss[|es|].now + ms)
  {
    Extend(p, ss, es, Tick(ms));
    ss', es' := ss + [Step(p, ss[|es|], Tick(ms))], es + [Tick(ms)];
  }

  /** Runs a full burst at the end of one life and one at the start of the
      next; the answers of interest sit at [a, a+limit-1) and [b, b+limit). */
  lemma TwoBursts(p: Params) returns (ss: seq<State>, es: seq<Event>, a: nat, b: nat)
    requires p.limit >= 1 && p.window >= 2
    ensures Run(p, ss, es) && Init(p, ss[0]) && a + p.limit - 1 <= b && b + p.limit <= |es|
    ensures forall i :: a <= i < a + p.limit - 1 ==> Allows(p, ss[i], es[i]) && ss[i].now == p.window - 1
    ensures forall i :: b <= i < b + p.limit ==> Allows(p, ss[i], es[i]) && ss[i].now == p.window
  {
    ss, es := [State(map[], 0, map[], [])], [];
    ss, es := Open(p, ss, es);
    ss, es := Wait(p, ss, es, p.window - 1);
    a := |es|;
    ss, es := Burst(p, ss, es, 1, p.limit - 1);
    assert forall i :: a <= i < |es| ==> Allows(p, ss[i], es[i]) && ss[i].now == p.window - 1;
    ss, es, b := SecondBurst(p, ss, es);
  }

  lemma SecondBurst(p: Params, ss: seq<State>, es: seq<Event>) returns (ss': seq<State>, es': seq<Event>, b: nat)
    requires Run(p, ss, es) && p.limit >= 1 && p.window >= 2
    requires Answered(p, ss[|es|], p.limit) && ss[|es|].now == p.window - 1
    requires ss[|es|].keys[p.key].deadline == Some(p.window)
    ensures Run(p, ss', es') && ss <= ss' && es <= es' && |es| <= b && b + p.limit <= |es'|
    ensures forall i :: b <= i < b + p.limit ==> Allows(p, ss'[i], es'[i]) && ss'[i].now == p.window
  {
    ss', es' := Wait(p, ss, es, 1);
    ss', es' := Open(p, ss', es');
    b := |es'| - 1;
    ss', es' := Burst(p, ss', es', 1, p.limit - 1);
  }

  /** WindowBound is tight: both bursts fall into a single window. */
  lemma WindowBoundIsAttained(p: Params) returns (ss: seq<State>, es: seq<Event>, from: int)
    requires p.limit >= 1 && p.window >= 2
    ensures Run(p, ss, es) && Init(p, ss[0])
    ensures |AllowedWithin(p, ss, es, from)| == 2 * p.limit - 1
  {
    var a, b;
    ss, es, a, b := TwoBursts(p);
    from := 1;
    var older, newer := Range(a, a + p.limit - 1), Range(b, b + p.limit);
    assert older !! newer && |older + newer| == 2 * p.limit - 1;
    forall i | i in older + newer ensures i in AllowedWithin(p, ss, es, from) {
    }
    SubsetSize(older + newer, AllowedWithin(p, ss, es, from));
    WindowBound(p, ss, es, from);
  }

  /** A key does lose its only EXPIRE: the command fails, or its caller is gone. */
  lemma ExpireCanBeLost(p: Params, abandoned: bool) returns (ss: seq<State>, es: seq<Event>)
    requires p.window > 0
    ensures Run(p, ss, es) && Init(p, ss[0]) && Stuck(p, ss[|es|])
    ensures |es| == 2 && es[0] == Incr(0, Fine) && es[1] == if abandoned then Abandon(0) else Expire(0, Refused)
  {
    ss, es := [State(map[], 0, map[], [])], [];
    Extend(p, ss, es, Incr(0, Fine));
    ss, es := ss + [Step(p, ss[|es|], Incr(0, Fine))], es + [Incr(0, Fine)];
    assert ss[1].pending == map[0 := 0] && ss[1].keys == map[p.key := Entry(Counter(1), None)];
    var e := if abandoned then Abandon(0) else Expire(0, Refused);
    Extend(p, ss, es, e);
    ss, es := ss + [Step(p, ss[|es|], e)], es + [e];
    assert ss[2].pending == map[];
  }

  /** What "sliding window" promises: never more than `limit` error-free
      allowed calls in any interval of one window. */
  ghost predicate SlidingGuarantee(p: Params) {
    forall ss, es, from :: Run(p, ss, es) && Init(p, ss[0]) ==>
      |AllowedWithin(p, ss, es, from)| <= if p.limit >= 1 then p.limit else 0
  }

  /** The fixed window keeps the sliding promise exactly for limits up to one. */
  lemma SlidingGuaranteeIff(p: Params)
    requires p.window >= 2
    ensures SlidingGuarantee(p) <==> p.limit <= 1
  {
    if p.limit <= 1 {
      forall ss, es, from | Run(p, ss, es) && Init(p, ss[0])
        ensures |AllowedWithin(p, ss, es, from)| <= if p.limit >= 1 then p.limit else 0
      {
        WindowBound(p, ss, es, from);
      }
    } else {
      var ss, es, from := WindowBoundIsAttained(p);
      assert |AllowedWithin(p, ss, es, from)| > p.limit;
    }
  }
}
