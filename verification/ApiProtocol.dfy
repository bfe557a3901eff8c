/** Handler.SendNotification as concurrent requests run it, over the Redis
    keyspace, the tables and the topic they share. Every step of a request is at
    the same time a step of the cache protocol and of the rate protocol of one
    watched key, so their theorems carry over. */
module ApiProtocol {
  import opened Domain
  import opened Redis
  import opened Store
  import Broker
  import C = CacheProtocol
  import L = RateProtocol

  type ReqId = nat

  datatype SendRequest = SendRequest(userId: Id, channel: string, templateId: string, payload: map<string, string>)

  datatype Reply = BadRequest | RateLimited | UserNotFound | InternalError | Skipped | Accepted(id: Id)

  datatype Phase =
    | Limiting
    | Expiring
    | Checked
    | FindingUser
    | FindingPrefs(user: User)
    | Saving(n: Notification)
    | Publishing(n: Notification)
    | Replied(reply: Reply)
    | Gone

  /** A request, and the verdict of its rate check with the time it was given. */
  datatype Request = Request(body: SendRequest, phase: Phase, verdict: Option<L.Verdict>, checkedAt: int)

  /** A message of the topic and, as history, the request that published it. */
  datatype Published = Published(message: Broker.Message, request: ReqId)

  datatype Params = Params(ttl: int, limit: int64, window: int, watch: string)

  datatype State = State(
    cache: C.State,
    pending: map<L.CallId, nat>,
    lives: seq<L.Life>,
    requests: map<ReqId, Request>,
    notifications: Notifications,
    topic: seq<Published>,
    ids: set<Id>)

  datatype Event =
    | Arrive(r: ReqId, body: Option<SendRequest>)
    | Env(step: C.Event)
    | Incr(r: ReqId, fault: Fault)
    | Expire(r: ReqId, fault: Fault)
    | AskUser(r: ReqId)
    | Lookup(r: ReqId, step: C.Event)
    | GotUser(r: ReqId)
    | GotPrefs(r: ReqId, id: Id, at: int)
    | Save(r: ReqId, fault: Fault)
    | Publish(r: ReqId, fault: Fault, extra: nat)
    | Quit(r: ReqId)

  // ---------------------------------------------------------------------
  // The pure parts of the handler
  // ---------------------------------------------------------------------

  function ChannelOf(name: string): (c: Option<Channel>)
    ensures c.Some? <==> exists d :: ChannelName(d) == name
    ensures c.Some? ==> ChannelName(c.value) == name
  {
    if name == "ios" then assert ChannelName(IOS) == name; Some(IOS)
    else if name == "android" then assert ChannelName(Android) == name; Some(Android)
    else if name == "sms" then assert ChannelName(SMS) == name; Some(SMS)
    else if name == "email" then assert ChannelName(Email) == name; Some(Email)
    else None
  }

  predicate Valid(body: Option<SendRequest>) {
    body.Some? && body.value.userId != "" && body.value.templateId != "" && ChannelOf(body.value.channel).Some?
  }

  /** isChannelEnabled. */
  predicate IsChannelEnabled(c: Channel, p: Preferences) {
    match c
    case Email => p.emailEnabled
    case SMS => p.smsEnabled
    case IOS => p.pushEnabled
    case Android => p.pushEnabled
  }

  function Enrich(id: Id, body: SendRequest, c: Channel, at: int, user: User): Notification {
    Notification(id, body.userId, c, body.templateId, body.payload, Pending, at, user.email, user.phone, user.deviceToken)
  }

  // ---------------------------------------------------------------------
  // Steps
  // ---------------------------------------------------------------------

  function KeyOf(rq: Request): string { RateKey(rq.body.userId, rq.body.channel) }

  function UserLookup(r: ReqId): C.LookupId { 2 * r }

  function PrefsLookup(r: ReqId): C.LookupId { 2 * r + 1 }

  predicate At(a: State, r: ReqId, p: Phase) {
    r in a.requests && a.requests[r].phase == p
  }

  /** The lookup has ended with this answer. */
  predicate Answered(c: C.State, l: C.LookupId, x: C.Subject, r: Result<Data, Failure>) {
    l in c.lookups && c.lookups[l].subject == x && c.lookups[l].phase.Done? && c.lookups[l].phase.result == r
  }

  predicate HasAnswer(c: C.State, l: C.LookupId) {
    l in c.lookups && c.lookups[l].phase.Done?
  }

  /** The environment lets time pass, rewrites the account tables, and spoils
      or drops cache entries. */
  ghost predicate Ambient(c: C.State, e: C.Event) {
    match e
    case Tick(_) => true
    case Write(_) => true
    case Spoil(k) => k in c.keys && IsCacheKey(k)
    case Drop(k) => IsCacheKey(k)
    case _ => false
  }

  ghost predicate Enabled(a: State, e: Event) {
    match e
    case Arrive(r, _) => r !in a.requests
    case Env(step) => Ambient(a.cache, step)
    case Incr(r, _) => At(a, r, Limiting)
    case Expire(r, _) => At(a, r, Expiring)
    case AskUser(r) => At(a, r, Checked)
    case Lookup(r, step) =>
      && (step.Get? || step.Read? || step.Fill?) && C.Enabled(a.cache, step)
      && r in a.requests
      && ((a.requests[r].phase.FindingUser? && step.lookup == UserLookup(r)) ||
          (a.requests[r].phase.FindingPrefs? && step.lookup == PrefsLookup(r)))
    case GotUser(r) => At(a, r, FindingUser) && HasAnswer(a.cache, UserLookup(r))
    case GotPrefs(r, id, _) =>
      r in a.requests && a.requests[r].phase.FindingPrefs? && HasAnswer(a.cache, PrefsLookup(r)) && id !in a.ids
    case Save(r, _) => r in a.requests && a.requests[r].phase.Saving?
    case Publish(r, _, _) => r in a.requests && a.requests[r].phase.Publishing?
    case Quit(r) => r in a.requests && !a.requests[r].phase.Replied?
  }

  /** The INCR reaches the counter. */
  predicate Counted(c: C.State, k: string, fault: Fault) {
    fault.Applied() && IncrReply(c.keys, c.now, k).Some?
  }

  /** This step as the cache protocol sees it. */
  ghost function CacheEvent(p: Params, a: State, e: Event): C.Event
    requires Enabled(a, e)
  {
    var c := a.cache;
    match e
    case Env(step) => step
    case Incr(r, fault) =>
      var k := KeyOf(a.requests[r]);
      if Counted(c, k, fault) then C.Foreign(k, AfterIncr(c.keys, c.now, k)[k]) else C.Tick(0)
    case Expire(r, fault) =>
      var k := KeyOf(a.requests[r]);
      if fault.Applied() && Live(c.keys, c.now, k)
      then C.Foreign(k, AfterExpire(c.keys, c.now, k, p.window)[k]) else C.Tick(0)
    case AskUser(r) =>
      if Passed(a.requests[r])
      then C.Start(UserLookup(r), C.UserOf(a.requests[r].body.userId)) else C.Tick(0)
    case Lookup(_, step) => step
    case GotUser(r) =>
      if c.lookups[UserLookup(r)].phase.result.Ok?
      then C.Start(PrefsLookup(r), C.PrefsOf(a.requests[r].body.userId)) else C.Tick(0)
    case _ => C.Tick(0)
  }

  /** This step as the rate protocol of the watched key sees it. */
  ghost function RateEvent(p: Params, a: State, e: Event): L.Event
    requires Enabled(a, e)
  {
    var c := a.cache;
    match e
    case Env(step) =>
      (match step
       case Tick(ms) => L.Tick(ms)
       case Spoil(k) => L.Foreign(k, Some(c.keys[k].(data := Garbage)))
       case Drop(k) => L.Foreign(k, None)
       case _ => L.Tick(0))
    case Incr(r, fault) =>
      var k := KeyOf(a.requests[r]);
      if k == p.watch then L.Incr(r, fault)
      else if Counted(c, k, fault) then L.Foreign(k, Some(AfterIncr(c.keys, c.now, k)[k])) else L.Tick(0)
    case Expire(r, fault) =>
      var k := KeyOf(a.requests[r]);
      if k == p.watch then L.Expire(r, fault)
      else if fault.Applied() && Live(c.keys, c.now, k)
      then L.Foreign(k, Some(AfterExpire(c.keys, c.now, k, p.window)[k])) else L.Tick(0)
    case Lookup(_, step) =>
      if step.Fill? && step.fault.Applied() then
        var x := c.lookups[step.lookup];
        L.Foreign(C.KeyOf(x.subject), Some(Entry(x.phase.value, Some(c.now + p.ttl))))
      else L.Tick(0)
    case Quit(r) =>
      if At(a, r, Expiring) && KeyOf(a.requests[r]) == p.watch then L.Abandon(r) else L.Tick(0)
    case _ => L.Tick(0)
  }

  function RateParams(p: Params): L.Params { L.Params(p.watch, p.limit, p.window) }

  function RateView(a: State): L.State { L.State(a.cache.keys, a.cache.now, a.pending, a.lives) }

  /** The verdict of a request's own rate check at this step. */
  function Verdict(p: Params, a: State, rq: Request, e: Event): Option<L.Verdict>
    requires e.Incr? || e.Expire?
  {
    var own := L.Params(KeyOf(rq), p.limit, p.window);
    L.Returns(own, RateView(a), if e.Incr? then L.Incr(e.r, e.fault) else L.Expire(e.r, e.fault))
  }

  function Moved(rq: Request, phase: Phase): Request { rq.(phase := phase) }

  function Accept(body: Option<SendRequest>): Request {
    if Valid(body) then Request(body.value, Limiting, None, 0)
    else Request(SendRequest("", "", "", map[]), Replied(BadRequest), None, 0)
  }

  function AfterRate(rq: Request, verdict: Option<L.Verdict>, now: int): Request {
    if verdict.None? then Moved(rq, Expiring) else Request(rq.body, Checked, verdict, now)
  }

  predicate Passed(rq: Request) {
    rq.verdict.Some? && rq.verdict.value.allowed
  }

  function AfterUser(rq: Request, user: Result<Data, Failure>): Request {
    match user
    case Ok(UserDoc(u)) => Moved(rq, FindingPrefs(u))
    case _ => Moved(rq, Replied(UserNotFound))
  }

  /** The preference gate. */
  function AfterPrefs(rq: Request, prefs: Result<Data, Failure>, id: Id, at: int): Request
    requires rq.phase.FindingPrefs?
  {
    match (prefs, ChannelOf(rq.body.channel))
    case (Ok(PrefsDoc(p)), Some(c)) =>
      if IsChannelEnabled(c, p) then Moved(rq, Saving(Enrich(id, rq.body, c, at, rq.phase.user)))
      else Moved(rq, Replied(Skipped))
    case _ => Moved(rq, Replied(InternalError))
  }

  /** The request after a step of its own. */
  ghost function Progress(p: Params, a: State, e: Event): Request
    requires Enabled(a, e) && !e.Env?
  {
    if e.Arrive? then Accept(e.body)
    else
      var rq := a.requests[e.r];
      if e.Incr? || e.Expire? then AfterRate(rq, Verdict(p, a, rq, e), a.cache.now)
      else if e.AskUser? then Moved(rq, if Passed(rq) then FindingUser else Replied(RateLimited))
      else if e.GotUser? then AfterUser(rq, a.cache.lookups[UserLookup(e.r)].phase.result)
      else if e.GotPrefs? then AfterPrefs(rq, a.cache.lookups[PrefsLookup(e.r)].phase.result, e.id, e.at)
      else if e.Save? then
        Moved(rq, if e.fault.Fine? && CanSave(a.notifications, a.cache.db, rq.phase.n)
                  then Publishing(rq.phase.n) else Replied(InternalError))
      else if e.Publish? then
        Moved(rq, Replied(if e.fault.Fine? && ChannelName(rq.phase.n.channel) in Broker.ROUTING
                          then Accepted(rq.phase.n.id) else InternalError))
      else if e.Quit? then Moved(rq, Gone)
      else rq
  }

  function MessageOf(n: Notification): Broker.Message
    requires ChannelName(n.channel) in Broker.ROUTING
  {
    Broker.Message(Broker.ROUTING[ChannelName(n.channel)].topic, n.userId, Broker.Json(n))
  }

  ghost function Step(p: Params, a: State, e: Event): State
    requires Enabled(a, e)
  {
    var rate := L.Step(RateParams(p), RateView(a), RateEvent(p, a, e));
    var b := a.(cache := C.Step(p.ttl, a.cache, CacheEvent(p, a, e)), pending := rate.pending, lives := rate.lives);
    if e.Env? then b
    else
      var after := Progress(p, a, e);
      var n := if e.Save? || e.Publish? then Some(a.requests[e.r].phase.n) else None;
      b.(requests := a.requests[e.r := after],
         ids := if e.GotPrefs? then a.ids + {e.id} else a.ids,
         notifications := if e.Save? && e.fault.Applied() && CanSave(a.notifications, a.cache.db, n.value)
                          then a.notifications[n.value.id := NotificationRow(n.value)] else a.notifications,
         topic := if e.Publish? && e.fault.Applied() && ChannelName(n.value.channel) in Broker.ROUTING
                  then a.topic + Broker.Copies(Published(MessageOf(n.value), e.r), e.extra + 1) else a.topic)
  }

  ghost predicate Next(p: Params, a: State, e: Event, b: State) {
    Enabled(a, e) && b == Step(p, a, e)
  }

  /** A server that has just started on a keyspace without rate or cache keys. */
  ghost predicate Init(p: Params, a: State) {
    && p.ttl > 0 && p.window > 0 && IsRateKey(p.watch)
    && C.Init(a.cache) && p.watch !in a.cache.keys && a.pending == map[] && a.lives == []
    && a.requests == map[] && a.notifications == map[] && a.topic == [] && a.ids == {}
  }

  ghost predicate Run(p: Params, ss: seq<State>, es: seq<Event>) {
    |ss| == |es| + 1 && forall i :: 0 <= i < |es| ==> Next(p, ss[i], es[i], ss[i + 1])
  }
}
