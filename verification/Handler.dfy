/** api.Handler.SendNotification over the limiter, the cache, the tables and the
    producer, tied to the request protocol. */
module Handler {
  import opened Domain
  import opened Redis
  import opened Store
  import Broker
  import Cache
  import Limiter
  import C = CacheProtocol
  import L = RateProtocol
  import opened ApiProtocol
  import opened Decision

  /** One request with its fate. */
  datatype Call = Call(r: ReqId, body: Option<SendRequest>, fate: Fate)

  // ---------------------------------------------------------------------
  // The events of one call
  // ---------------------------------------------------------------------

  function FaultsOf(c: Call, l: C.LookupId): Cache.Faults {
    if l == UserLookup(c.r) then c.fate.user else c.fate.prefs
  }

  /** An event of this call, with the outcome its fate decides. */
  ghost predicate Fated(e: Event, c: Call) {
    && !e.Env? && e.r == c.r
    && match e
       case Arrive(_, body) => body == c.body
       case Incr(_, fault) => fault == c.fate.onIncr
       case Expire(_, fault) => fault == c.fate.onExpire
       case Lookup(_, step) =>
         || (step.Get? && step.fault == FaultsOf(c, step.lookup).onGet)
         || (step.Read? && step.fault == FaultsOf(c, step.lookup).onRead)
         || (step.Fill? && step.fault == FaultsOf(c, step.lookup).onSet)
       case GotPrefs(_, id, at) => id == c.fate.id && at == c.fate.at
       case Save(_, fault) => fault == c.fate.onSave
       case Publish(_, fault, extra) => fault == c.fate.onPublish && extra == c.fate.copies
       case Quit(_) => false
       case _ => true
  }

  ghost predicate OwnEvents(es: seq<Event>, c: Call) {
    forall i :: 0 <= i < |es| ==> Fated(es[i], c)
  }

  lemma OneFatedEvent(a: State, c: Call, d: Event, e: Event)
    requires Enabled(a, d) && Enabled(a, e) && Fated(d, c) && Fated(e, c)
    ensures d == e
    ensures !(c.r in a.requests && a.requests[c.r].phase.Replied?)
  {
  }

  lemma {:induction false} FatedPrefix(p: Params, c: Call, ss: seq<State>, es: seq<Event>, ts: seq<State>, ds: seq<Event>, i: nat)
    requires Run(p, ss, es) && Run(p, ts, ds) && OwnEvents(es, c) && OwnEvents(ds, c)
    requires ss[0] == ts[0] && i <= |es| && i <= |ds|
    ensures ss[..i + 1] == ts[..i + 1] && es[..i] == ds[..i]
  {
    if i == 0 {
    } else {
      FatedPrefix(p, c, ss, es, ts, ds, i - 1);
      assert ss[..i][i - 1] == ts[..i][i - 1];
      assert Next(p, ss[i - 1], es[i - 1], ss[i]) && Next(p, ts[i - 1], ds[i - 1], ts[i]);
      OneFatedEvent(ss[i - 1], c, es[i - 1], ds[i - 1]);
      assert ss[..i + 1] == ss[..i] + [ss[i]] && ts[..i + 1] == ts[..i] + [ts[i]];
      assert es[..i] == es[..i - 1] + [es[i - 1]] && ds[..i] == ds[..i - 1] + [ds[i - 1]];
    }
  }

  lemma NothingFollowsReply(p: Params, c: Call, ss: seq<State>, es: seq<Event>, i: nat)
    requires Run(p, ss, es) && OwnEvents(es, c) && i <= |es|
    requires c.r in ss[i].requests && ss[i].requests[c.r].phase.Replied?
    ensures i == |es|
  {
    if i < |es| {
      assert Next(p, ss[i], es[i], ss[i + 1]);
      OneFatedEvent(ss[i], c, es[i], es[i]);
    }
  }

  /** A call's fate leaves no freedom: two runs of it from one state to a reply
      are the same run, with the same reply. */
  lemma FateDetermines(p: Params, c: Call, ss: seq<State>, es: seq<Event>, ts: seq<State>, ds: seq<Event>)
    requires Run(p, ss, es) && Run(p, ts, ds) && OwnEvents(es, c) && OwnEvents(ds, c) && ss[0] == ts[0]
    requires c.r in ss[|es|].requests && ss[|es|].requests[c.r].phase.Replied?
    requires c.r in ts[|ds|].requests && ts[|ds|].requests[c.r].phase.Replied?
    ensures ss == ts && es == ds
  {
    var i := if |es| <= |ds| then |es| else |ds|;
    FatedPrefix(p, c, ss, es, ts, ds, i);
    assert ss[..i + 1][i] == ts[..i + 1][i];
    NothingFollowsReply(p, c, ss, es, i);
    NothingFollowsReply(p, c, ts, ds, i);
    assert ss[..i + 1] == ss && ts[..i + 1] == ts && es[..i] == es && ds[..i] == ds;
  }

  // ---------------------------------------------------------------------
  // The stages of a request that runs alone
  // ---------------------------------------------------------------------

  lemma Extend(p: Params, ss: seq<State>, es: seq<Event>, c: Call, e: Event)
    returns (ss': seq<State>, es': seq<Event>, t: State)
    requires Run(p, ss, es) && OwnEvents(es, c) && Enabled(ss[|es|], e) && Fated(e, c)
    ensures t == Step(p, ss[|es|], e)
    ensures ss' == ss + [t] && es' == es + [e] && Run(p, ss', es') && OwnEvents(es', c)
  {
    t := Step(p, ss[|es|], e);
    ss', es' := ss + [t], es + [e];
  }

  /** What a stage leaves alone besides the request itself. */
  ghost predicate Rest(a: State, b: State, r: ReqId) {
    && r in b.requests && b.requests == a.requests[r := b.requests[r]]
    && b.cache.db == a.cache.db && b.cache.now == a.cache.now
    && b.notifications == a.notifications && b.topic == a.topic && b.ids == a.ids
  }

  lemma RateStage(p: Params, ss: seq<State>, es: seq<Event>, c: Call)
    returns (ss': seq<State>, es': seq<Event>)
    requires Run(p, ss, es) && OwnEvents(es, c) && At(ss[|es|], c.r, Limiting)
    ensures Run(p, ss', es') && OwnEvents(es', c) && ss'[0] == ss[0]
    ensures var a, b := ss[|es|], ss'[|es'|];
            var own := L.Params(KeyOf(a.requests[c.r]), p.limit, p.window);
            && Rest(a, b, c.r) && b.cache.lookups == a.cache.lookups
            && b.requests[c.r] == Request(a.requests[c.r].body, Checked,
                 Some(Limiter.Answer(own, a.cache.keys, a.cache.now, c.fate.onIncr, c.fate.onExpire)), a.cache.now)
            && b.cache.keys == Limiter.KeysAfter(own, a.cache.keys, a.cache.now, c.fate.onIncr, c.fate.onExpire)
  {
    var t;
    var a := ss[|es|];
    var k := KeyOf(a.requests[c.r]);
    ss', es', t := Extend(p, ss, es, c, Incr(c.r, c.fate.onIncr));
    assert t.cache.keys == if c.fate.onIncr.Applied() then AfterIncr(a.cache.keys, a.cache.now, k) else a.cache.keys;
    if t.requests[c.r].phase.Expiring? {
      var before := t;
      ss', es', t := Extend(p, ss', es', c, Expire(c.r, c.fate.onExpire));
      assert t.cache.keys == if c.fate.onExpire.Applied() then AfterExpire(before.cache.keys, a.cache.now, k, p.window)
                             else before.cache.keys;
    }
  }

  ghost predicate Looking(a: State, r: ReqId, l: C.LookupId) {
    r in a.requests && ((a.requests[r].phase.FindingUser? && l == UserLookup(r)) ||
                        (a.requests[r].phase.FindingPrefs? && l == PrefsLookup(r)))
  }

  /** A lookup that misses: the read and, after a good answer, the SET. */
  lemma MissStage(p: Params, ss: seq<State>, es: seq<Event>, c: Call, l: C.LookupId, x: C.Subject)
    returns (ss': seq<State>, es': seq<Event>)
    requires Run(p, ss, es) && OwnEvents(es, c) && Looking(ss[|es|], c.r, l)
    requires l in ss[|es|].cache.lookups && ss[|es|].cache.lookups[l] == C.Lookup(x, C.Missed)
    ensures Run(p, ss', es') && OwnEvents(es', c) && ss'[0] == ss[0]
    ensures var a, b := ss[|es|], ss'[|es'|];
            var f := FaultsOf(c, l);
            var answer := if f.onRead.Fine? then C.Query(a.cache.db, x) else Err(Unavailable);
            && Rest(a, b, c.r) && b.requests[c.r] == a.requests[c.r]
            && b.cache.lookups == a.cache.lookups[l := C.Lookup(x, C.Done(answer, a.cache.now))]
            && b.cache.keys == if answer.Ok? && f.onSet.Applied()
                               then AfterSet(a.cache.keys, a.cache.now, C.KeyOf(x), answer.value, p.ttl) else a.cache.keys
  {
    var t;
    var f := FaultsOf(c, l);
    ss', es', t := Extend(p, ss, es, c, Lookup(c.r, C.Read(l, f.onRead)));
    if f.onRead.Fine? && C.Query(ss[|es|].cache.db, x).Ok? {
      ss', es', t := Extend(p, ss', es', c, Lookup(c.r, C.Fill(l, f.onSet)));
    }
  }

  lemma LookupStage(p: Params, ss: seq<State>, es: seq<Event>, c: Call, l: C.LookupId, x: C.Subject)
    returns (ss': seq<State>, es': seq<Event>)
    requires Run(p, ss, es) && OwnEvents(es, c) && Looking(ss[|es|], c.r, l)
    requires l in ss[|es|].cache.lookups && ss[|es|].cache.lookups[l] == C.Lookup(x, C.Asking)
    ensures Run(p, ss', es') && OwnEvents(es', c) && ss'[0] == ss[0]
    ensures var a, b, f := ss[|es|], ss'[|es'|], FaultsOf(c, l);
            && Rest(a, b, c.r) && b.requests[c.r] == a.requests[c.r]
            && b.cache.lookups == a.cache.lookups[l := C.Lookup(x, C.Done(Cache.Answer(a.cache, x, f), a.cache.now))]
            && b.cache.keys == Cache.KeysAfter(p.ttl, a.cache, x, f)
  {
    var t;
    var f := FaultsOf(c, l);
    ss', es', t := Extend(p, ss, es, c, Lookup(c.r, C.Get(l, f.onGet)));
    if Cache.Hit(ss[|es|].cache, x, f.onGet).None? {
      ss', es' := MissStage(p, ss', es', c, l, x);
    }
  }

  /** From a passed rate check to the user lookup's answer. */
  lemma UserStage(p: Params, ss: seq<State>, es: seq<Event>, c: Call)
    returns (ss': seq<State>, es': seq<Event>)
    requires Run(p, ss, es) && OwnEvents(es, c)
    requires At(ss[|es|], c.r, Checked) && Passed(ss[|es|].requests[c.r])
    requires UserLookup(c.r) !in ss[|es|].cache.lookups && PrefsLookup(c.r) !in ss[|es|].cache.lookups
    ensures Run(p, ss', es') && OwnEvents(es', c) && ss'[0] == ss[0]
    ensures var a, b := ss[|es|], ss'[|es'|];
            var u := a.requests[c.r].body.userId;
            && Rest(a, b, c.r) && b.cache.keys == Cache.KeysAfter(p.ttl, a.cache, C.UserOf(u), c.fate.user)
            && b.requests[c.r] == AfterUser(Moved(a.requests[c.r], FindingUser), Cache.Answer(a.cache, C.UserOf(u), c.fate.user))
            && (Cache.Answer(a.cache, C.UserOf(u), c.fate.user).Ok? ==>
                  PrefsLookup(c.r) in b.cache.lookups
                  && b.cache.lookups[PrefsLookup(c.r)] == C.Lookup(C.PrefsOf(u), C.Asking))
  {
    var t;
    var a := ss[|es|];
    var x := C.UserOf(a.requests[c.r].body.userId);
    ss', es', t := Extend(p, ss, es, c, AskUser(c.r));
    assert Cache.Hit(t.cache, x, c.fate.user.onGet) == Cache.Hit(a.cache, x, c.fate.user.onGet);
    ss', es' := LookupStage(p, ss', es', c, UserLookup(c.r), x);
    ss', es', t := Extend(p, ss', es', c, GotUser(c.r));
  }

  /** From the user's answer through the preference gate. */
  lemma GateStage(p: Params, ss: seq<State>, es: seq<Event>, c: Call)
    returns (ss': seq<State>, es': seq<Event>)
    requires Run(p, ss, es) && OwnEvents(es, c) && c.r in ss[|es|].requests && ss[|es|].requests[c.r].phase.FindingPrefs?
    requires PrefsLookup(c.r) in ss[|es|].cache.lookups
    requires ss[|es|].cache.lookups[PrefsLookup(c.r)] == C.Lookup(C.PrefsOf(ss[|es|].requests[c.r].body.userId), C.Asking)
    requires c.fate.id !in ss[|es|].ids
    ensures Run(p, ss', es') && OwnEvents(es', c) && ss'[0] == ss[0]
    ensures var a, b := ss[|es|], ss'[|es'|];
            var x := C.PrefsOf(a.requests[c.r].body.userId);
            && Rest(a, b.(ids := a.ids), c.r) && b.cache.keys == Cache.KeysAfter(p.ttl, a.cache, x, c.fate.prefs)
            && b.requests[c.r] == AfterPrefs(a.requests[c.r], Cache.Answer(a.cache, x, c.fate.prefs), c.fate.id, c.fate.at)
  {
    var t;
    var a := ss[|es|];
    ss', es' := LookupStage(p, ss, es, c, PrefsLookup(c.r), C.PrefsOf(a.requests[c.r].body.userId));
    ss', es', t := Extend(p, ss', es', c, GotPrefs(c.r, c.fate.id, c.fate.at));
  }

  lemma SaveStage(p: Params, ss: seq<State>, es: seq<Event>, c: Call)
    returns (ss': seq<State>, es': seq<Event>)
    requires Run(p, ss, es) && OwnEvents(es, c) && c.r in ss[|es|].requests && ss[|es|].requests[c.r].phase.Saving?
    ensures Run(p, ss', es') && OwnEvents(es', c) && ss'[0] == ss[0]
    ensures var a, b := ss[|es|], ss'[|es'|];
            var n := a.requests[c.r].phase.n;
            var ok := CanSave(a.notifications, a.cache.db, n);
            && Rest(a, b.(notifications := a.notifications), c.r) && b.cache == a.cache
            && b.notifications == (if c.fate.onSave.Applied() && ok then a.notifications[n.id := NotificationRow(n)] else a.notifications)
            && b.requests[c.r] == Moved(a.requests[c.r], if c.fate.onSave.Fine? && ok then Publishing(n) else Replied(InternalError))
  {
    var t;
    ss', es', t := Extend(p, ss, es, c, Save(c.r, c.fate.onSave));
  }

  lemma PublishStage(p: Params, ss: seq<State>, es: seq<Event>, c: Call)
    returns (ss': seq<State>, es': seq<Event>)
    requires Run(p, ss, es) && OwnEvents(es, c) && c.r in ss[|es|].requests && ss[|es|].requests[c.r].phase.Publishing?
    ensures Run(p, ss', es') && OwnEvents(es', c) && ss'[0] == ss[0]
    ensures var a, b := ss[|es|], ss'[|es'|];
            var n := a.requests[c.r].phase.n;
            && ChannelName(n.channel) in Broker.ROUTING
            && Rest(a, b.(topic := a.topic), c.r) && b.cache == a.cache
            && b.topic == (if c.fate.onPublish.Applied() then a.topic + Broker.Copies(Published(MessageOf(n), c.r), c.fate.copies + 1) else a.topic)
            && b.requests[c.r] == Moved(a.requests[c.r], Replied(if c.fate.onPublish.Fine? then Accepted(n.id) else InternalError))
  {
    var t;
    Broker.EveryChannelIsRouted(ss[|es|].requests[c.r].phase.n.channel);
    ss', es', t := Extend(p, ss, es, c, Publish(c.r, c.fate.onPublish, c.fate.copies));
  }

  // ---------------------------------------------------------------------
  // The handler
  // ---------------------------------------------------------------------

  predicate Mirrors(topic: seq<Published>, messages: seq<Broker.Message>) {
    |topic| == |messages| && forall k :: 0 <= k < |topic| ==> topic[k].message == messages[k]
  }

  /** This request's notification under this id was appended, once or more. */
  predicate Queued(before: seq<Broker.Message>, after: seq<Broker.Message>, id: Id, req: SendRequest) {
    && before < after && (forall k :: |before| <= k < |after| ==> after[k] == after[|before|])
    && var m := after[|before|];
       && m.key == req.userId && m.value.Json?
       && m.value.n.id == id && m.value.n.userId == req.userId && ChannelName(m.value.n.channel) == req.channel
       && m.value.n.templateId == req.templateId && m.value.n.payload == req.payload
  }

  /** The protocol's account of a lookup and the decision's are the same. */
  lemma UserFound(s: C.State, id: Id, f: Cache.Faults)
    ensures match FindUser(id, s.keys, s.now, s.db, f)
            case Some(u) => Cache.Answer(s, C.UserOf(id), f) == Ok(UserDoc(u))
            case None => Cache.Answer(s, C.UserOf(id), f).Err?
  {
    assert UserKey(id) == "user:" + id;
  }

  lemma PrefsFound(s: C.State, id: Id, f: Cache.Faults)
    ensures match FindPrefs(id, s.keys, s.now, s.db, f)
            case Some(prefs) => Cache.Answer(s, C.PrefsOf(id), f) == Ok(PrefsDoc(prefs))
            case None => Cache.Answer(s, C.PrefsOf(id), f).Err?
  {
    assert PrefsKey(id) == "prefs:" + id;
  }

  lemma NamesAgree(body: Option<SendRequest>)
    ensures body.Some? ==> ChannelOf(body.value.channel) == ChannelNamed(body.value.channel)
  {
  }

  lemma CarriedFacts(body: Option<SendRequest>, keys: Keyspace, now: int, limit: int, db: Accounts, fate: Fate,
                     ns: Notifications, log: seq<Broker.Message>, reply: Reply, ns': Notifications, log': seq<Broker.Message>)
    requires Carried(Decide(body, keys, now, limit, db, fate), fate, db, ns, log, reply, ns', log')
    ensures !reply.Accepted? && !reply.InternalError? ==> ns' == ns && log' == log
    ensures reply.Accepted? ==> Valid(body) && reply.id == fate.id && Queued(log, log', fate.id, body.value)
    ensures log' == log || (Valid(body) && Queued(log, log', fate.id, body.value) && fate.id in ns')
  {
    NamesAgree(body);
  }

  class Handler {
    const producer: Broker.Producer
    const userCache: Cache.UserCache
    const notifRepo: Database
    const limiter: Limiter.Limiter

    constructor (producer: Broker.Producer, userCache: Cache.UserCache, notifRepo: Database, limiter: Limiter.Limiter)
      ensures this.producer == producer && this.userCache == userCache
      ensures this.notifRepo == notifRepo && this.limiter == limiter
    {
      this.producer := producer;
      this.userCache := userCache;
      this.notifRepo := notifRepo;
      this.limiter := limiter;
    }

    /** The wiring of cmd/server: one Redis server, one database. */
    predicate Wired(p: Params)
    {
      && limiter.redis == userCache.rdb && userCache.store == notifRepo && producer.routing == Broker.ROUTING
      && p.ttl == userCache.ttl && p.limit == limiter.limit && p.window == limiter.window
    }

    /** What a call that runs alone sees of the protocol's state. */
    ghost predicate Sees(a: State)
      reads userCache.rdb, notifRepo, producer.log
    {
      && a.cache.keys == userCache.rdb.keys && a.cache.now == userCache.rdb.now
      && a.cache.db == notifRepo.accounts && a.notifications == notifRepo.notifications
      && Mirrors(a.topic, producer.log.messages)
    }

    /** The run so far is this call alone as its fate decides, and the objects
        are where it leads. */
    ghost predicate Tracks(p: Params, a: State, c: Call, ss: seq<State>, es: seq<Event>)
      reads userCache.rdb, notifRepo, producer.log
    {
      Run(p, ss, es) && OwnEvents(es, c) && ss[0] == a && c.r in ss[|es|].requests && Sees(ss[|es|])
    }

    /** POST /api/v1/notify. Seen from any state of the request protocol, the
        call is the run of a new request that its fate determines, up to the
        reply; and it carries out the decision that the tables, the keyspace and
        the fate call for. */
    method SendNotification(body: Option<SendRequest>, fate: Fate, ghost p: Params, ghost a: State, ghost r: ReqId)
      returns (reply: Reply, ghost ss: seq<State>, ghost es: seq<Event>)
      requires Wired(p) && Sees(a) && r !in a.requests && fate.id !in a.ids
      requires UserLookup(r) !in a.cache.lookups && PrefsLookup(r) !in a.cache.lookups
      modifies userCache.rdb`keys, notifRepo`notifications, producer.log
      ensures Tracks(p, a, Call(r, body, fate), ss, es) && At(ss[|es|], r, Replied(reply))
      ensures Carried(Decide(body, old(userCache.rdb.keys), userCache.rdb.now, limiter.limit, notifRepo.accounts, fate), fate,
                      notifRepo.accounts, old(notifRepo.notifications), old(producer.log.messages),
                      reply, notifRepo.notifications, producer.log.messages)
      ensures !reply.Accepted? && !reply.InternalError? ==>
                notifRepo.notifications == old(notifRepo.notifications) && producer.log.messages == old(producer.log.messages)
      ensures reply.Accepted? ==> Valid(body) && reply.id == fate.id
      ensures reply.Accepted? ==> Queued(old(producer.log.messages), producer.log.messages, fate.id, body.value)
      ensures producer.log.messages == old(producer.log.messages) ||
              (Valid(body) && Queued(old(producer.log.messages), producer.log.messages, fate.id, body.value) && fate.id in notifRepo.notifications)
    {
      reply, ss, es := Answer(body, fate, p, a, r);
      CarriedFacts(body, old(userCache.rdb.keys), userCache.rdb.now, limiter.limit, notifRepo.accounts, fate,
                   old(notifRepo.notifications), old(producer.log.messages), reply, notifRepo.notifications, producer.log.messages);
    }

    method Answer(body: Option<SendRequest>, fate: Fate, ghost p: Params, ghost a: State, ghost r: ReqId)
      returns (reply: Reply, ghost ss: seq<State>, ghost es: seq<Event>)
      requires Wired(p) && Sees(a) && r !in a.requests && fate.id !in a.ids
      requires UserLookup(r) !in a.cache.lookups && PrefsLookup(r) !in a.cache.lookups
      modifies userCache.rdb`keys, notifRepo`notifications, producer.log
      ensures Tracks(p, a, Call(r, body, fate), ss, es) && At(ss[|es|], r, Replied(reply))
      ensures Carried(Decide(body, old(userCache.rdb.keys), userCache.rdb.now, limiter.limit, notifRepo.accounts, fate), fate,
                      notifRepo.accounts, old(notifRepo.notifications), old(producer.log.messages),
                      reply, notifRepo.notifications, producer.log.messages)
    {
      ghost var t;
      ghost var c := Call(r, body, fate);
      ss, es, t := Extend(p, [a], [], c, Arrive(r, body));
      NamesAgree(body);
      if !Valid(body) {
        return BadRequest, ss, es;
      }
      reply, ss, es := Serve(body.value, fate, p, a, c, ss, es);
    }

    /** A valid request. */
    method Serve(req: SendRequest, fate: Fate, ghost p: Params, ghost a: State, ghost c: Call,
                 ghost ss0: seq<State>, ghost es0: seq<Event>)
      returns (reply: Reply, ghost ss: seq<State>, ghost es: seq<Event>)
      requires Wired(p) && Tracks(p, a, c, ss0, es0) && fate == c.fate && fate.id !in ss0[|es0|].ids
      requires At(ss0[|es0|], c.r, Limiting) && ss0[|es0|].requests[c.r].body == req
      requires ChannelOf(req.channel).Some? && ChannelOf(req.channel) == ChannelNamed(req.channel)
      requires UserLookup(c.r) !in ss0[|es0|].cache.lookups && PrefsLookup(c.r) !in ss0[|es0|].cache.lookups
      modifies userCache.rdb`keys, notifRepo`notifications, producer.log
      ensures Tracks(p, a, c, ss, es) && At(ss[|es|], c.r, Replied(reply))
      ensures Carried(if Limited(req, old(userCache.rdb.keys), userCache.rdb.now, limiter.limit, fate) then Refuse(RateLimited)
                      else DecidePastLimit(req, old(userCache.rdb.keys), userCache.rdb.now, notifRepo.accounts, fate),
                      fate, notifRepo.accounts, old(notifRepo.notifications), old(producer.log.messages),
                      reply, notifRepo.notifications, producer.log.messages)
    {
      var allowed;
      allowed, ss, es := CheckLimit(req, fate, p, a, c, ss0, es0);
      if !allowed {
        ghost var t;
        ss, es, t := Extend(p, ss, es, c, AskUser(c.r));
        return RateLimited, ss, es;
      }
      CounterIsNotLooked(old(userCache.rdb.keys), userCache.rdb.keys, req, userCache.rdb.now, notifRepo.accounts, fate);
      reply, ss, es := Resolve(req, ChannelOf(req.channel).value, fate, p, a, c, ss, es);
    }

    /** Step 3: the rate limit. */
    method CheckLimit(req: SendRequest, fate: Fate, ghost p: Params, ghost a: State, ghost c: Call,
                      ghost ss0: seq<State>, ghost es0: seq<Event>)
      returns (allowed: bool, ghost ss: seq<State>, ghost es: seq<Event>)
      requires Wired(p) && Tracks(p, a, c, ss0, es0) && fate == c.fate
      requires At(ss0[|es0|], c.r, Limiting) && ss0[|es0|].requests[c.r].body == req
      modifies userCache.rdb`keys
      ensures Tracks(p, a, c, ss, es)
      ensures ss[|es|].requests[c.r].phase == Checked && ss[|es|].requests[c.r].body == req
      ensures Passed(ss[|es|].requests[c.r]) == allowed
      ensures ss[|es|].ids == ss0[|es0|].ids && ss[|es|].cache.lookups == ss0[|es0|].cache.lookups
      ensures allowed == !Limited(req, old(userCache.rdb.keys), userCache.rdb.now, limiter.limit, fate)
      ensures DifferOnlyAt(old(userCache.rdb.keys), userCache.rdb.keys, RateKey(req.userId, req.channel))
    {
      ss, es := RateStage(p, ss0, es0, c);
      var verdict := limiter.Allow(req.userId, req.channel, fate.onIncr, fate.onExpire);
      allowed := verdict.allowed;
    }

    /** Step 4, the user, and what follows. */
    method Resolve(req: SendRequest, channel: Channel, fate: Fate, ghost p: Params, ghost a: State, ghost c: Call,
                   ghost ss0: seq<State>, ghost es0: seq<Event>)
      returns (reply: Reply, ghost ss: seq<State>, ghost es: seq<Event>)
      requires Wired(p) && Tracks(p, a, c, ss0, es0) && fate == c.fate && fate.id !in ss0[|es0|].ids
      requires At(ss0[|es0|], c.r, Checked) && ss0[|es0|].requests[c.r].body == req && Passed(ss0[|es0|].requests[c.r])
      requires ChannelOf(req.channel) == ChannelNamed(req.channel) == Some(channel)
      requires UserLookup(c.r) !in ss0[|es0|].cache.lookups && PrefsLookup(c.r) !in ss0[|es0|].cache.lookups
      modifies userCache.rdb`keys, notifRepo`notifications, producer.log
      ensures Tracks(p, a, c, ss, es) && At(ss[|es|], c.r, Replied(reply))
      ensures Carried(DecidePastLimit(req, old(userCache.rdb.keys), userCache.rdb.now, notifRepo.accounts, fate), fate,
                      notifRepo.accounts, old(notifRepo.notifications), old(producer.log.messages),
                      reply, notifRepo.notifications, producer.log.messages)
    {
      ss, es := UserStage(p, ss0, es0, c);
      UserFound(ss0[|es0|].cache, req.userId, fate.user);
      var user := userCache.FindByID(req.userId, fate.user, ss0[|es0|].cache);
      if user.Err? {
        return UserNotFound, ss, es;
      }
      UserEntryIsNotPrefs(old(userCache.rdb.keys), userCache.rdb.keys, req.userId, userCache.rdb.now, notifRepo.accounts, fate.prefs);
      reply, ss, es := Gate(req, channel, user.value, fate, p, a, c, ss, es);
    }

    /** Step 5, the preferences and the gate, and what follows. */
    method Gate(req: SendRequest, channel: Channel, user: User, fate: Fate, ghost p: Params, ghost a: State, ghost c: Call,
                ghost ss0: seq<State>, ghost es0: seq<Event>)
      returns (reply: Reply, ghost ss: seq<State>, ghost es: seq<Event>)
      requires Wired(p) && Tracks(p, a, c, ss0, es0) && fate == c.fate && fate.id !in ss0[|es0|].ids
      requires ss0[|es0|].requests[c.r].phase == FindingPrefs(user) && ss0[|es0|].requests[c.r].body == req
      requires ChannelOf(req.channel) == ChannelNamed(req.channel) == Some(channel)
      requires PrefsLookup(c.r) in ss0[|es0|].cache.lookups
      requires ss0[|es0|].cache.lookups[PrefsLookup(c.r)] == C.Lookup(C.PrefsOf(req.userId), C.Asking)
      modifies userCache.rdb`keys, notifRepo`notifications, producer.log
      ensures Tracks(p, a, c, ss, es) && At(ss[|es|], c.r, Replied(reply))
      ensures Carried(DecideOn(req, user, FindPrefs(req.userId, old(userCache.rdb.keys), userCache.rdb.now, notifRepo.accounts, fate.prefs), fate),
                      fate, notifRepo.accounts, old(notifRepo.notifications), old(producer.log.messages),
                      reply, notifRepo.notifications, producer.log.messages)
    {
      ss, es := GateStage(p, ss0, es0, c);
      PrefsFound(ss0[|es0|].cache, req.userId, fate.prefs);
      var prefs := userCache.FindPreferences(req.userId, fate.prefs, ss0[|es0|].cache);
      if prefs.Err? {
        return InternalError, ss, es;
      }
      if !IsChannelEnabled(channel, prefs.value) {
        return Skipped, ss, es;
      }
      reply, ss, es := Queue(Enrich(fate.id, req, channel, fate.at, user), fate, p, a, c, ss, es);
    }

    /** Step 7, the row, and what follows. */
    method Queue(notif: Notification, fate: Fate, ghost p: Params, ghost a: State, ghost c: Call,
                 ghost ss0: seq<State>, ghost es0: seq<Event>)
      returns (reply: Reply, ghost ss: seq<State>, ghost es: seq<Event>)
      requires Wired(p) && Tracks(p, a, c, ss0, es0) && fate == c.fate && At(ss0[|es0|], c.r, Saving(notif))
      modifies notifRepo`notifications, producer.log
      ensures Tracks(p, a, c, ss, es) && At(ss[|es|], c.r, Replied(reply))
      ensures Carried(Send(notif), fate, notifRepo.accounts, old(notifRepo.notifications), old(producer.log.messages),
                      reply, notifRepo.notifications, producer.log.messages)
      ensures userCache.rdb.keys == old(userCache.rdb.keys)
    {
      ss, es := SaveStage(p, ss0, es0, c);
      var saved := notifRepo.Save(notif, fate.onSave);
      if !saved {
        return InternalError, ss, es;
      }
      reply, ss, es := Announce(notif, fate, p, a, c, ss, es);
    }

    /** Steps 8 and 9: the message and the reply. */
    method Announce(notif: Notification, fate: Fate, ghost p: Params, ghost a: State, ghost c: Call,
                    ghost ss0: seq<State>, ghost es0: seq<Event>)
      returns (reply: Reply, ghost ss: seq<State>, ghost es: seq<Event>)
      requires Wired(p) && Tracks(p, a, c, ss0, es0) && fate == c.fate && At(ss0[|es0|], c.r, Publishing(notif))
      modifies producer.log
      ensures Tracks(p, a, c, ss, es) && At(ss[|es|], c.r, Replied(reply))
      ensures reply == if fate.onPublish.Fine? then Accepted(notif.id) else InternalError
      ensures producer.log.messages == old(producer.log.messages) +
                if fate.onPublish.Applied()
                then Broker.Copies(Broker.Message("notifications", notif.userId, Broker.Json(notif)), fate.copies + 1) else []
    {
      ss, es := PublishStage(p, ss0, es0, c);
      var published := producer.Publish(notif, fate.onPublish, fate.copies);
      reply := if published then Accepted(notif.id) else InternalError;
    }
  }
}
