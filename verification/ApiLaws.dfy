/** What concurrent SendNotification requests guarantee end to end. */
module ApiLaws {
  import opened Domain
  import opened Redis
  import opened Store
  import Broker
  import opened Sets
  import C = CacheProtocol
  import L = RateProtocol
  import opened ApiProtocol

  // ---------------------------------------------------------------------
  // Invariant
  // ---------------------------------------------------------------------

  ghost predicate FoundUser(a: State, r: ReqId, user: User) {
    r in a.requests && Passed(a.requests[r]) &&
    Answered(a.cache, UserLookup(r), C.UserOf(a.requests[r].body.userId), Ok(UserDoc(user)))
  }

  /** The notification was built from answered lookups of its own user, and its
      channel was enabled in the preferences found. */
  ghost predicate Gated(a: State, r: ReqId, n: Notification) {
    && r in a.requests && Passed(a.requests[r])
    && n.userId == a.requests[r].body.userId && ChannelName(n.channel) == a.requests[r].body.channel
    && (exists user :: FoundUser(a, r, user) && n.recipientEmail == user.email
          && n.recipientPhone == user.phone && n.recipientToken == user.deviceToken)
    && (exists prefs :: Answered(a.cache, PrefsLookup(r), C.PrefsOf(n.userId), Ok(PrefsDoc(prefs)))
          && IsChannelEnabled(n.channel, prefs))
  }

  ghost predicate Unasked(a: State, l: C.LookupId) {
    l !in a.cache.lookups
  }

  ghost predicate Asked(a: State, l: C.LookupId, x: C.Subject) {
    l in a.cache.lookups && a.cache.lookups[l].subject == x
  }

  ghost predicate PublishedBy(a: State, r: ReqId, id: Id) {
    exists k :: 0 <= k < |a.topic| && a.topic[k].request == r && a.topic[k].message.value.Json?
      && a.topic[k].message.value.n.id == id
  }

  ghost predicate RequestOk(a: State, r: ReqId)
    requires r in a.requests
  {
    var rq := a.requests[r];
    var u := rq.body.userId;
    && (rq.phase.Limiting? || rq.phase.Expiring? ==> rq.verdict.None?)
    && (rq.phase.Limiting? || rq.phase.Expiring? || rq.phase.Checked? ==>
          Unasked(a, UserLookup(r)) && Unasked(a, PrefsLookup(r)))
    && (rq.phase.FindingUser? ==>
          Passed(rq) && Asked(a, UserLookup(r), C.UserOf(u)) && Unasked(a, PrefsLookup(r)))
    && (rq.phase.FindingPrefs? ==>
          FoundUser(a, r, rq.phase.user) && Asked(a, PrefsLookup(r), C.PrefsOf(u)))
    && (rq.phase.Saving? ==> Gated(a, r, rq.phase.n))
    && (rq.phase.Publishing? ==> Gated(a, r, rq.phase.n) && rq.phase.n.id in a.notifications)
    && (rq.phase.Replied? && rq.phase.reply.Accepted? ==> PublishedBy(a, r, rq.phase.reply.id))
  }

  ghost predicate RequestsOk(a: State) {
    && (forall r :: r in a.requests ==> RequestOk(a, r))
    && (forall l :: l in a.cache.lookups ==> l / 2 in a.requests)
  }

  ghost predicate MessageOk(a: State, m: Published) {
    && m.message.value.Json? && m.message == TopicMessage(m.message.value.n)
    && Gated(a, m.request, m.message.value.n) && m.message.value.n.id in a.notifications
    && (a.requests[m.request].phase.Replied? || a.requests[m.request].phase.Gone?)
  }

  function TopicMessage(n: Notification): Broker.Message {
    Broker.Message("notifications", n.userId, Broker.Json(n))
  }

  ghost predicate TopicOk(a: State) {
    && (forall k :: 0 <= k < |a.topic| ==> MessageOk(a, a.topic[k]))
    && (forall j, k | 0 <= j < k < |a.topic| :: a.topic[j].request == a.topic[k].request ==> a.topic[j] == a.topic[k])
  }

  predicate Waits(p: Params, rq: Request) {
    rq.phase.Expiring? && KeyOf(rq) == p.watch
  }

  ghost predicate PendingOk(p: Params, a: State) {
    forall r :: r in a.pending <==> r in a.requests && Waits(p, a.requests[r])
  }

  ghost predicate Inv(p: Params, a: State) {
    RequestsOk(a) && TopicOk(a) && PendingOk(p, a) && IsRateKey(p.watch)
  }

  // ---------------------------------------------------------------------
  // Each step is a step of both component protocols
  // ---------------------------------------------------------------------

  lemma RateKeyIsForeign(rq: Request)
    ensures IsRateKey(KeyOf(rq)) && !IsCacheKey(KeyOf(rq))
  {
    RateKeysAreNotCacheKeys(KeyOf(rq));
  }

  lemma CacheStepEnabled(p: Params, a: State, e: Event)
    requires Inv(p, a) && Enabled(a, e)
    ensures C.Enabled(a.cache, CacheEvent(p, a, e))
  {
    match e
    case Incr(r, _) => RateKeyIsForeign(a.requests[r]);
    case Expire(r, _) => RateKeyIsForeign(a.requests[r]);
    case _ =>
  }

  /** The two views of a step leave the same keyspace and clock. */
  ghost predicate RateAgrees(p: Params, a: State, e: Event)
    requires Enabled(a, e)
  {
    && L.Enabled(RateParams(p), RateView(a), RateEvent(p, a, e))
    && L.Step(RateParams(p), RateView(a), RateEvent(p, a, e)).keys == C.Step(p.ttl, a.cache, CacheEvent(p, a, e)).keys
    && L.Step(RateParams(p), RateView(a), RateEvent(p, a, e)).now == C.Step(p.ttl, a.cache, CacheEvent(p, a, e)).now
  }

  lemma AmbientAgrees(p: Params, a: State, e: Event)
    requires IsRateKey(p.watch) && Enabled(a, e) && e.Env?
    ensures RateAgrees(p, a, e)
  {
    RateKeysAreNotCacheKeys(p.watch);
  }

  lemma IncrAgrees(p: Params, a: State, e: Event)
    requires PendingOk(p, a) && Enabled(a, e) && e.Incr?
    ensures RateAgrees(p, a, e)
  {
  }

  lemma ExpireAgrees(p: Params, a: State, e: Event)
    requires PendingOk(p, a) && Enabled(a, e) && e.Expire?
    ensures RateAgrees(p, a, e)
  {
  }

  lemma LookupAgrees(p: Params, a: State, e: Event)
    requires IsRateKey(p.watch) && Enabled(a, e) && e.Lookup?
    ensures RateAgrees(p, a, e)
  {
    RateKeysAreNotCacheKeys(p.watch);
    C.SubjectKeys(a.cache.lookups[e.step.lookup].subject, a.cache.lookups[e.step.lookup].subject);
  }

  lemma RateStepAgrees(p: Params, a: State, e: Event)
    requires Inv(p, a) && Enabled(a, e)
    ensures L.Enabled(RateParams(p), RateView(a), RateEvent(p, a, e))
    ensures RateView(Step(p, a, e)) == L.Step(RateParams(p), RateView(a), RateEvent(p, a, e))
  {
    assert RateAgrees(p, a, e) by {
      if e.Env? {
        AmbientAgrees(p, a, e);
      } else if e.Incr? {
        IncrAgrees(p, a, e);
      } else if e.Expire? {
        ExpireAgrees(p, a, e);
      } else if e.Lookup? {
        LookupAgrees(p, a, e);
      }
    }
  }

  // ---------------------------------------------------------------------
  // Preservation
  // ---------------------------------------------------------------------

  /** Lookups keep their subject and their answer; a new one is what the event
      started. */
  ghost predicate LookupsGrow(c: C.State, d: C.State, e: C.Event) {
    && (forall l :: l in c.lookups ==> l in d.lookups && d.lookups[l].subject == c.lookups[l].subject)
    && (forall l :: l in c.lookups && c.lookups[l].phase.Done? ==> d.lookups[l] == c.lookups[l])
    && (forall l :: l in d.lookups && l !in c.lookups ==> e.Start? && l == e.lookup)
    && (e.Start? ==> e.lookup in d.lookups && d.lookups[e.lookup].subject == e.subject)
  }

  lemma CacheStepGrows(ttl: int, c: C.State, e: C.Event)
    requires C.Enabled(c, e)
    ensures LookupsGrow(c, C.Step(ttl, c, e), e)
  {
  }

  /** A step besides what it does to the cache and the rate counters. */
  ghost predicate Effect(p: Params, a: State, e: Event, b: State)
    requires Enabled(a, e)
  {
    && b.requests == (if e.Env? then a.requests else a.requests[e.r := Progress(p, a, e)])
    && (e.Save? && b.requests[e.r].phase.Publishing? ==> a.requests[e.r].phase.n.id in b.notifications)
    && (forall id :: id in a.notifications ==> id in b.notifications)
    && b.topic == a.topic + (if e.Publish? && e.fault.Applied() && ChannelName(a.requests[e.r].phase.n.channel) in Broker.ROUTING
                             then Broker.Copies(Published(MessageOf(a.requests[e.r].phase.n), e.r), e.extra + 1) else [])
  }

  lemma StepHasEffect(p: Params, a: State, e: Event)
    requires Enabled(a, e)
    ensures Effect(p, a, e, Step(p, a, e))
  {
  }

  /** Everything that holds of a request keeps holding while its own phase does
      not move: answers, verdicts, saved rows and messages only accumulate. */
  ghost predicate Accumulates(a: State, b: State) {
    && (forall l :: l in a.cache.lookups && a.cache.lookups[l].phase.Done? ==>
          l in b.cache.lookups && b.cache.lookups[l] == a.cache.lookups[l])
    && (forall r :: r in a.requests ==> r in b.requests)
    && (forall r :: r in a.requests && Passed(a.requests[r]) ==>
          b.requests[r].body == a.requests[r].body && b.requests[r].verdict == a.requests[r].verdict)
    && (forall id :: id in a.notifications ==> id in b.notifications)
    && a.topic <= b.topic
  }

  lemma ProgressKeepsVerdict(p: Params, a: State, e: Event)
    requires Enabled(a, e) && !e.Env? && !e.Arrive? && RequestOk(a, e.r) && Passed(a.requests[e.r])
    ensures Progress(p, a, e).body == a.requests[e.r].body && Progress(p, a, e).verdict == a.requests[e.r].verdict
  {
  }

  lemma EffectAccumulates(p: Params, a: State, e: Event, b: State, ce: C.Event)
    requires Enabled(a, e) && RequestsOk(a) && Effect(p, a, e, b) && LookupsGrow(a.cache, b.cache, ce)
    ensures Accumulates(a, b)
  {
    if !e.Env? && !e.Arrive? && Passed(a.requests[e.r]) {
      ProgressKeepsVerdict(p, a, e);
    }
  }

  lemma GatedStays(a: State, b: State, r: ReqId, n: Notification)
    requires Accumulates(a, b) && Gated(a, r, n)
    ensures Gated(b, r, n)
  {
  }

  lemma OtherRequestStays(a: State, b: State, ce: C.Event, r: ReqId)
    requires Accumulates(a, b) && LookupsGrow(a.cache, b.cache, ce) && (ce.Start? ==> ce.lookup / 2 != r)
    requires r in a.requests && RequestOk(a, r) && r in b.requests && b.requests[r] == a.requests[r]
    ensures RequestOk(b, r)
  {
  }

  lemma EarlyStepOk(p: Params, a: State, e: Event, b: State)
    requires RequestsOk(a) && Enabled(a, e) && Effect(p, a, e, b)
    requires LookupsGrow(a.cache, b.cache, CacheEvent(p, a, e)) && Accumulates(a, b)
    requires e.Arrive? || e.Incr? || e.Expire? || e.AskUser? || e.Quit?
    ensures RequestOk(b, e.r)
  {
    var r := e.r;
    assert UserLookup(r) / 2 == r && PrefsLookup(r) / 2 == r;
    if r in a.requests {
      assert RequestOk(a, r);
    }
  }

  lemma LookupStepOk(p: Params, a: State, e: Event, b: State)
    requires RequestsOk(a) && Enabled(a, e) && Effect(p, a, e, b)
    requires LookupsGrow(a.cache, b.cache, CacheEvent(p, a, e)) && Accumulates(a, b)
    requires e.Lookup? || e.GotUser?
    ensures RequestOk(b, e.r)
  {
  }

  lemma GateStepOk(p: Params, a: State, e: Event, b: State)
    requires RequestsOk(a) && Enabled(a, e) && Effect(p, a, e, b) && Accumulates(a, b)
    requires e.GotPrefs?
    ensures RequestOk(b, e.r)
  {
  }

  lemma LastStepsOk(p: Params, a: State, e: Event, b: State)
    requires RequestsOk(a) && Enabled(a, e) && Effect(p, a, e, b) && Accumulates(a, b)
    requires e.Save? || e.Publish?
    ensures RequestOk(b, e.r)
  {
    var n := a.requests[e.r].phase.n;
    assert RequestOk(a, e.r);
    GatedStays(a, b, e.r, n);
    if b.requests[e.r].phase.Replied? && b.requests[e.r].phase.reply.Accepted? {
      assert b.topic[|a.topic|] == Published(MessageOf(n), e.r);
      assert PublishedBy(b, e.r, n.id);
    }
  }

  lemma StartIsOwn(p: Params, a: State, e: Event)
    requires Enabled(a, e) && CacheEvent(p, a, e).Start?
    ensures !e.Env? && CacheEvent(p, a, e).lookup / 2 == e.r
  {
  }

  lemma RequestsStayOk(p: Params, a: State, e: Event, b: State)
    requires RequestsOk(a) && Enabled(a, e) && Effect(p, a, e, b)
    requires LookupsGrow(a.cache, b.cache, CacheEvent(p, a, e))
    ensures RequestsOk(b)
  {
    var ce := CacheEvent(p, a, e);
    EffectAccumulates(p, a, e, b, ce);
    if ce.Start? {
      StartIsOwn(p, a, e);
    }
    forall r | r in b.requests ensures RequestOk(b, r) {
      if e.Env? || r != e.r {
        OtherRequestStays(a, b, ce, r);
      } else if e.Lookup? || e.GotUser? {
        LookupStepOk(p, a, e, b);
      } else if e.GotPrefs? {
        GateStepOk(p, a, e, b);
      } else if e.Save? || e.Publish? {
        LastStepsOk(p, a, e, b);
      } else {
        EarlyStepOk(p, a, e, b);
      }
    }
  }

  /** Only a finished request has a message, and only Quit touches it again. */
  lemma MessageStays(p: Params, a: State, e: Event, b: State, m: Published)
    requires Enabled(a, e) && Effect(p, a, e, b) && Accumulates(a, b) && MessageOk(a, m)
    ensures MessageOk(b, m)
  {
  }

  lemma OldMessagesStay(p: Params, a: State, e: Event, b: State)
    requires TopicOk(a) && Enabled(a, e) && Effect(p, a, e, b) && Accumulates(a, b)
    ensures forall k :: 0 <= k < |a.topic| ==> MessageOk(b, b.topic[k])
  {
    forall k | 0 <= k < |a.topic| ensures MessageOk(b, b.topic[k]) {
      assert b.topic[k] == a.topic[k];
      MessageStays(p, a, e, b, a.topic[k]);
    }
  }

  /** Messages that a step appends are copies of one that is in order. */
  lemma NewMessagesOk(p: Params, a: State, e: Event, b: State, k: nat)
    requires RequestsOk(a) && Enabled(a, e) && Effect(p, a, e, b) && Accumulates(a, b)
    requires |a.topic| <= k < |b.topic|
    ensures e.Publish? && b.topic[k] == b.topic[|a.topic|] && b.topic[k].request == e.r && MessageOk(b, b.topic[k])
  {
    var n := a.requests[e.r].phase.n;
    assert RequestOk(a, e.r);
    GatedStays(a, b, e.r, n);
    Broker.EveryChannelIsRouted(n.channel);
  }

  lemma TopicStaysOk(p: Params, a: State, e: Event, b: State)
    requires RequestsOk(a) && TopicOk(a) && Enabled(a, e) && Effect(p, a, e, b) && Accumulates(a, b)
    ensures TopicOk(b)
  {
    OldMessagesStay(p, a, e, b);
    forall k | |a.topic| <= k < |b.topic|
      ensures e.Publish? && b.topic[k] == b.topic[|a.topic|] && b.topic[k].request == e.r && MessageOk(b, b.topic[k])
    {
      NewMessagesOk(p, a, e, b, k);
    }
    assert forall j :: 0 <= j < |a.topic| ==> b.topic[j] == a.topic[j] && MessageOk(a, a.topic[j]);
  }

  /** Who waits for an EXPIRE on the watched key after the step. */
  ghost function PendingAfter(p: Params, a: State, e: Event): set<ReqId>
    requires Enabled(a, e)
  {
    if e.Incr? && KeyOf(a.requests[e.r]) == p.watch && Progress(p, a, e).phase.Expiring? then a.pending.Keys + {e.r}
    else if e.Expire? || e.Quit? then a.pending.Keys - {e.r}
    else a.pending.Keys
  }

  lemma PendingKeys(p: Params, a: State, e: Event)
    requires PendingOk(p, a) && Enabled(a, e)
    ensures L.Step(RateParams(p), RateView(a), RateEvent(p, a, e)).pending.Keys == PendingAfter(p, a, e)
  {
  }

  lemma OwnPending(p: Params, a: State, e: Event)
    requires PendingOk(p, a) && Enabled(a, e) && !e.Env?
    ensures e.r in PendingAfter(p, a, e) <==> Waits(p, Progress(p, a, e))
  {
  }

  lemma PendingStaysOk(p: Params, a: State, e: Event, b: State, after: Request)
    requires PendingOk(p, a) && Enabled(a, e)
    requires b.requests == (if e.Env? then a.requests else a.requests[e.r := after])
    requires forall r :: e.Env? || r != e.r ==> (r in b.pending <==> r in a.pending)
    requires !e.Env? ==> (e.r in b.pending <==> Waits(p, after))
    ensures PendingOk(p, b)
  {
  }

  lemma StepKeepsPending(p: Params, a: State, e: Event)
    requires PendingOk(p, a) && Enabled(a, e)
    ensures PendingOk(p, Step(p, a, e))
  {
    StepHasEffect(p, a, e);
    PendingKeys(p, a, e);
    if e.Env? {
      PendingStaysOk(p, a, e, Step(p, a, e), Accept(None));
    } else {
      OwnPending(p, a, e);
      PendingStaysOk(p, a, e, Step(p, a, e), Progress(p, a, e));
    }
  }

  lemma StepKeepsMessages(p: Params, a: State, e: Event)
    requires Inv(p, a) && Enabled(a, e)
    ensures RequestsOk(Step(p, a, e)) && TopicOk(Step(p, a, e))
  {
    var b := Step(p, a, e);
    assert LookupsGrow(a.cache, b.cache, CacheEvent(p, a, e)) by {
      CacheStepEnabled(p, a, e);
      CacheStepGrows(p.ttl, a.cache, CacheEvent(p, a, e));
    }
    StepHasEffect(p, a, e);
    EffectAccumulates(p, a, e, b, CacheEvent(p, a, e));
    RequestsStayOk(p, a, e, b);
    TopicStaysOk(p, a, e, b);
  }

  lemma StepKeepsInv(p: Params, a: State, e: Event)
    requires Inv(p, a) && Enabled(a, e)
    ensures Inv(p, Step(p, a, e))
  {
    StepKeepsMessages(p, a, e);
    StepKeepsPending(p, a, e);
  }

  lemma {:induction false} ReachableInv(p: Params, ss: seq<State>, es: seq<Event>, n: nat)
    requires Run(p, ss, es) && Init(p, ss[0]) && n <= |es|
    ensures Inv(p, ss[n])
  {
    if n == 0 {
    } else {
      ReachableInv(p, ss, es, n - 1);
      assert Next(p, ss[n - 1], es[n - 1], ss[n]);
      StepKeepsInv(p, ss[n - 1], es[n - 1]);
    }
  }

  // ---------------------------------------------------------------------
  // Runs of requests are runs of the component protocols
  // ---------------------------------------------------------------------

  lemma ProjectCache(p: Params, ss: seq<State>, es: seq<Event>) returns (cs: seq<C.State>, ces: seq<C.Event>)
    requires Run(p, ss, es) && Init(p, ss[0])
    ensures |cs| == |ss| && C.Run(p.ttl, cs, ces) && C.Init(cs[0])
    ensures forall i :: 0 <= i < |ss| ==> cs[i] == ss[i].cache
    ensures |ces| == |es| && forall i :: 0 <= i < |es| ==> Enabled(ss[i], es[i]) && ces[i] == CacheEvent(p, ss[i], es[i])
  {
    cs := seq(|ss|, i requires 0 <= i < |ss| => ss[i].cache);
    ces := seq(|es|, i requires 0 <= i < |es| => if Enabled(ss[i], es[i]) then CacheEvent(p, ss[i], es[i]) else C.Tick(0));
    forall i | 0 <= i < |ces|
      ensures C.Next(p.ttl, cs[i], ces[i], cs[i + 1]) && Enabled(ss[i], es[i])
    {
      ReachableInv(p, ss, es, i);
      assert Next(p, ss[i], es[i], ss[i + 1]);
      CacheStepEnabled(p, ss[i], es[i]);
    }
  }

  lemma ProjectRate(p: Params, ss: seq<State>, es: seq<Event>) returns (ls: seq<L.State>, les: seq<L.Event>)
    requires Run(p, ss, es) && Init(p, ss[0])
    ensures |ls| == |ss| && L.Run(RateParams(p), ls, les) && L.Init(RateParams(p), ls[0])
    ensures forall i :: 0 <= i < |ss| ==> ls[i] == RateView(ss[i])
    ensures |les| == |es| && forall i :: 0 <= i < |es| ==> Enabled(ss[i], es[i]) && les[i] == RateEvent(p, ss[i], es[i])
  {
    ls := seq(|ss|, i requires 0 <= i < |ss| => RateView(ss[i]));
    les := seq(|es|, i requires 0 <= i < |es| => if Enabled(ss[i], es[i]) then RateEvent(p, ss[i], es[i]) else L.Tick(0));
    forall i | 0 <= i < |les|
      ensures L.Next(RateParams(p), ls[i], les[i], ls[i + 1]) && Enabled(ss[i], es[i])
    {
      ReachableInv(p, ss, es, i);
      assert Next(p, ss[i], es[i], ss[i + 1]);
      RateStepAgrees(p, ss[i], es[i]);
    }
  }

  // ---------------------------------------------------------------------
  // Preferences and recipients behind a published message
  // ---------------------------------------------------------------------

  /** Events j and m are the database read and the SET of one lookup. */
  ghost predicate Fills(es: seq<Event>, j: int, m: int, l: C.LookupId) {
    && 0 <= j < m < |es|
    && es[j].Lookup? && es[j].step == C.Read(l, Fine)
    && es[m].Lookup? && es[m].step.Fill? && es[m].step.lookup == l
  }

  /** A lookup's answer was the database's at instant j, and its age at the
      answer is below the entry lifetime plus the delay of the fill it came from. */
  lemma AnswerWasTrue(p: Params, ss: seq<State>, es: seq<Event>, n: nat, l: C.LookupId, x: C.Subject, v: Data)
    returns (j: nat, m: nat, filled: C.LookupId)
    requires Run(p, ss, es) && Init(p, ss[0]) && n <= |es|
    requires Answered(ss[n].cache, l, x, Ok(v))
    ensures j < m < n && C.Query(ss[j].cache.db, x) == Ok(v) && Fills(es, j, m, filled)
    ensures ss[j].cache.now <= ss[n].cache.lookups[l].phase.at < p.ttl + ss[m].cache.now
  {
    var cs, ces := ProjectCache(p, ss, es);
    var a, b := C.BoundedStaleness(p.ttl, cs, ces, n, l);
    j, m, filled := a, b, ces[b].lookup;
  }

  /** What the tables say about a channel: without a row every channel is on;
      with one, its column must be true and no column may be NULL. */
  predicate ChannelOn(db: Accounts, u: Id, c: Channel) {
    u in db.prefs ==>
      var row := db.prefs[u];
      && row.emailEnabled.Some? && row.smsEnabled.Some? && row.pushEnabled.Some?
      && (c.Email? ==> row.emailEnabled.value)
      && (c.SMS? ==> row.smsEnabled.value)
      && (c.IOS? || c.Android? ==> row.pushEnabled.value)
  }

  /** Every published message was let through by preferences that the database
      really held for its user, and carries recipient fields that the database
      really held: each at an instant whose distance to the moment the lookup
      answered is below the cache lifetime plus that fill's delay. */
  lemma PublishedWasGated(p: Params, ss: seq<State>, es: seq<Event>, n: nat, k: nat)
    returns (prefs: Preferences, j: nat, m: nat, user: User, j': nat, m': nat)
    requires Run(p, ss, es) && Init(p, ss[0]) && n <= |es| && k < |ss[n].topic|
    ensures ss[n].topic[k].message.value.Json? && m < n && m' < n && j < m && j' < m'
    ensures var msg, r := ss[n].topic[k].message.value.n, ss[n].topic[k].request;
            && HasAnswer(ss[n].cache, PrefsLookup(r)) && HasAnswer(ss[n].cache, UserLookup(r))
            && SelectPrefs(ss[j].cache.db, msg.userId) == Ok(prefs) && IsChannelEnabled(msg.channel, prefs)
            && ss[j].cache.now <= ss[n].cache.lookups[PrefsLookup(r)].phase.at < p.ttl + ss[m].cache.now
            && SelectUser(ss[j'].cache.db, msg.userId) == Ok(user)
            && msg.recipientEmail == user.email && msg.recipientPhone == user.phone && msg.recipientToken == user.deviceToken
            && ss[j'].cache.now <= ss[n].cache.lookups[UserLookup(r)].phase.at < p.ttl + ss[m'].cache.now
    ensures exists l, l' :: Fills(es, j, m, l) && Fills(es, j', m', l')
    ensures var msg := ss[n].topic[k].message.value.n;
            && ChannelOn(ss[j].cache.db, msg.userId, msg.channel)
            && msg.userId in ss[j'].cache.db.users
            && var row := ss[j'].cache.db.users[msg.userId];
               row.email == msg.recipientEmail && row.phone == Some(msg.recipientPhone) && row.deviceToken == Some(msg.recipientToken)
  {
    ReachableInv(p, ss, es, n);
    assert MessageOk(ss[n], ss[n].topic[k]);
    var msg, r := ss[n].topic[k].message.value.n, ss[n].topic[k].request;
    user :| FoundUser(ss[n], r, user) && msg.recipientEmail == user.email
          && msg.recipientPhone == user.phone && msg.recipientToken == user.deviceToken;
    prefs :| Answered(ss[n].cache, PrefsLookup(r), C.PrefsOf(msg.userId), Ok(PrefsDoc(prefs)))
          && IsChannelEnabled(msg.channel, prefs);
    var l, l';
    j, m, l := AnswerWasTrue(p, ss, es, n, PrefsLookup(r), C.PrefsOf(msg.userId), PrefsDoc(prefs));
    j', m', l' := AnswerWasTrue(p, ss, es, n, UserLookup(r), C.UserOf(msg.userId), UserDoc(user));
  }

  /** No fill of the run takes longer than d from its read to its SET. */
  ghost predicate FillsWithin(ss: seq<State>, es: seq<Event>, d: int) {
    forall j, m, l :: Fills(es, j, m, l) && m < |ss| ==> ss[m].cache.now - ss[j].cache.now <= d
  }

  /** From time t on the database does not allow channel c to user u. */
  ghost predicate OptedOutFrom(ss: seq<State>, u: Id, c: Channel, t: int) {
    forall i :: 0 <= i < |ss| && ss[i].cache.now >= t ==> !ChannelOn(ss[i].cache.db, u, c)
  }

  /** An opt-out takes effect at the gate within the cache lifetime plus the
      longest fill delay: whatever is published for that user and channel was
      gated before then. */
  lemma OptOutTakesEffect(p: Params, ss: seq<State>, es: seq<Event>, n: nat, k: nat, u: Id, c: Channel, t: int, d: int)
    requires Run(p, ss, es) && Init(p, ss[0]) && n <= |es| && k < |ss[n].topic|
    requires FillsWithin(ss, es, d) && OptedOutFrom(ss, u, c, t)
    requires ss[n].topic[k].message.value.Json?
    requires ss[n].topic[k].message.value.n.userId == u && ss[n].topic[k].message.value.n.channel == c
    ensures var r := ss[n].topic[k].request;
            HasAnswer(ss[n].cache, PrefsLookup(r)) && ss[n].cache.lookups[PrefsLookup(r)].phase.at < t + p.ttl + d
  {
    var prefs, j, m, user, j', m' := PublishedWasGated(p, ss, es, n, k);
    var l, l' :| Fills(es, j, m, l) && Fills(es, j', m', l');
    assert ss[j].cache.now < t;
  }

  // ---------------------------------------------------------------------
  // Provenance
  // ---------------------------------------------------------------------

  /** Every message of the topic is a notification saved before it; every 202
      has both a saved row and an appended message; all messages of one request
      are copies of one another. */
  lemma Provenance(p: Params, ss: seq<State>, es: seq<Event>, n: nat)
    requires Run(p, ss, es) && Init(p, ss[0]) && n <= |es|
    ensures forall k :: 0 <= k < |ss[n].topic| ==>
              ss[n].topic[k].message.value.Json? && ss[n].topic[k].message.value.n.id in ss[n].notifications
    ensures forall r, id :: At(ss[n], r, Replied(Accepted(id))) ==>
              id in ss[n].notifications && PublishedBy(ss[n], r, id)
    ensures forall j, k | 0 <= j < k < |ss[n].topic| ::
              ss[n].topic[j].request == ss[n].topic[k].request ==> ss[n].topic[j] == ss[n].topic[k]
  {
    ReachableInv(p, ss, es, n);
    forall k | 0 <= k < |ss[n].topic|
      ensures ss[n].topic[k].message.value.Json? && ss[n].topic[k].message.value.n.id in ss[n].notifications
    {
      assert MessageOk(ss[n], ss[n].topic[k]);
    }
    forall r, id | At(ss[n], r, Replied(Accepted(id)))
      ensures id in ss[n].notifications && PublishedBy(ss[n], r, id)
    {
      assert RequestOk(ss[n], r);
    }
  }

  // ---------------------------------------------------------------------
  // The rate at which messages are published
  // ---------------------------------------------------------------------

  ghost predicate ErrorFree(rq: Request) {
    rq.verdict == Some(L.Verdict(true, false))
  }

  /** Event i is the one at which request r was allowed by the watched key. */
  ghost predicate AllowedAt(p: Params, ss: seq<State>, es: seq<Event>, i: int, r: ReqId, at: int) {
    && 0 <= i < |es| < |ss| && Enabled(ss[i], es[i]) && !es[i].Env? && es[i].r == r
    && L.Allows(RateParams(p), RateView(ss[i]), RateEvent(p, ss[i], es[i])) && ss[i].cache.now == at
  }

  lemma VerdictStep(p: Params, a: State, e: Event, b: State, r: ReqId)
    requires RequestsOk(a) && Enabled(a, e) && Effect(p, a, e, b)
    requires r in b.requests && ErrorFree(b.requests[r]) && KeyOf(b.requests[r]) == p.watch
    ensures (!e.Env? && e.r == r && (e.Incr? || e.Expire?) && b.requests[r].checkedAt == a.cache.now
             && L.Allows(RateParams(p), RateView(a), RateEvent(p, a, e))) ||
            (r in a.requests && ErrorFree(a.requests[r]) && KeyOf(a.requests[r]) == p.watch
             && a.requests[r].checkedAt == b.requests[r].checkedAt)
  {
  }

  lemma {:induction false} VerdictHasEvent(p: Params, ss: seq<State>, es: seq<Event>, n: nat, r: ReqId)
    requires Run(p, ss, es) && Init(p, ss[0]) && n <= |es|
    requires r in ss[n].requests && ErrorFree(ss[n].requests[r]) && KeyOf(ss[n].requests[r]) == p.watch
    ensures exists i :: i < n && AllowedAt(p, ss, es, i, r, ss[n].requests[r].checkedAt)
  {
    var a, e := ss[n - 1], es[n - 1];
    assert Next(p, a, e, ss[n]);
    StepHasEffect(p, a, e);
    ReachableInv(p, ss, es, n - 1);
    VerdictStep(p, a, e, ss[n], r);
    if r in a.requests && ErrorFree(a.requests[r]) && KeyOf(a.requests[r]) == p.watch
       && a.requests[r].checkedAt == ss[n].requests[r].checkedAt {
      VerdictHasEvent(p, ss, es, n - 1, r);
    } else {
      assert AllowedAt(p, ss, es, n - 1, r, ss[n].requests[r].checkedAt);
    }
  }

  /** Requests for the watched user and channel that have reached the topic and
      whose rate check was error-free and answered within [from, from + window). */
  ghost function PublishedWithin(p: Params, a: State, from: int): set<ReqId> {
    set k | 0 <= k < |a.topic| && a.topic[k].request in a.requests && (
      var rq := a.requests[a.topic[k].request];
      KeyOf(rq) == p.watch && ErrorFree(rq) && from <= rq.checkedAt < from + p.window) :: a.topic[k].request
  }

  ghost function RequestAt(es: seq<Event>, i: int): ReqId {
    if 0 <= i < |es| && !es[i].Env? then es[i].r else 0
  }

  /** For each user and channel, at most 2*limit - 1 requests are published on
      the strength of error-free rate checks made within one window. */
  lemma PublishRateBound(p: Params, ss: seq<State>, es: seq<Event>, n: nat, from: int)
    requires Run(p, ss, es) && Init(p, ss[0]) && n <= |es|
    ensures |PublishedWithin(p, ss[n], from)| <= if p.limit >= 1 then 2 * p.limit - 1 else 0
  {
    var ls, les := ProjectRate(p, ss, es);
    var allowed := L.AllowedWithin(RateParams(p), ls, les, from);
    forall r | r in PublishedWithin(p, ss[n], from) ensures exists i :: i in allowed && RequestAt(es, i) == r {
      var i := CheckOf(p, ss, es, n, r, from, ls, les);
    }
    CoveredSize(PublishedWithin(p, ss[n], from), allowed, i => RequestAt(es, i));
    L.WindowBound(RateParams(p), ls, les, from);
  }

  /** The event at which a published request was allowed. */
  lemma CheckOf(p: Params, ss: seq<State>, es: seq<Event>, n: nat, r: ReqId, from: int, ls: seq<L.State>, les: seq<L.Event>)
    returns (i: int)
    requires Run(p, ss, es) && Init(p, ss[0]) && n <= |es| && r in PublishedWithin(p, ss[n], from)
    requires |ls| == |ss| && |les| == |es| && L.Run(RateParams(p), ls, les)
    requires forall i :: 0 <= i < |ss| ==> ls[i] == RateView(ss[i])
    requires forall i :: 0 <= i < |es| ==> Enabled(ss[i], es[i]) && les[i] == RateEvent(p, ss[i], es[i])
    ensures i in L.AllowedWithin(RateParams(p), ls, les, from) && RequestAt(es, i) == r
  {
    VerdictHasEvent(p, ss, es, n, r);
    i :| i < n && AllowedAt(p, ss, es, i, r, ss[n].requests[r].checkedAt);
  }

  /** The watched key stands for exactly one user and channel. */
  lemma WatchedMessages(p: Params, ss: seq<State>, es: seq<Event>, n: nat, k: nat, u: Id, c: Channel)
    requires Run(p, ss, es) && Init(p, ss[0]) && n <= |es| && k < |ss[n].topic|
    requires p.watch == RateKey(u, ChannelName(c))
    ensures ss[n].topic[k].message.value.Json? && ss[n].topic[k].request in ss[n].requests
    ensures var msg := ss[n].topic[k].message.value.n;
            KeyOf(ss[n].requests[ss[n].topic[k].request]) == p.watch <==> msg.userId == u && msg.channel == c
  {
    ReachableInv(p, ss, es, n);
    assert MessageOk(ss[n], ss[n].topic[k]);
    var msg := ss[n].topic[k].message.value.n;
    RateKeyInjective(msg.userId, msg.channel, u, c);
  }
}
