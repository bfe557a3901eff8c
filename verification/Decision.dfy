/** What one SendNotification call decides, said on the keyspace and the tables
    it finds, and on the outcomes of its remote calls. No other definition of
    the model is used, so that the handler is checked against an independent
    account of the pipeline. */
module Decision {
  import opened Domain
  import opened Redis
  import opened Store
  import Broker
  import Cache
  import opened ApiProtocol

  /** What the environment decides during one call. `copies` is how many
      further copies of its message the writer appends. */
  datatype Fate = Fate(onIncr: Fault, onExpire: Fault, user: Cache.Faults, prefs: Cache.Faults,
                       id: Id, at: int, onSave: Fault, onPublish: Fault, copies: nat)

  datatype Decision = Refuse(reply: Reply) | Send(n: Notification)

  /** The entry that Redis serves under a key. */
  function Served(keys: Keyspace, now: int, k: string): Option<Data> {
    if k in keys && (keys[k].deadline.None? || now < keys[k].deadline.value) then Some(keys[k].data) else None
  }

  /** The count that INCR answers, when it can. */
  function Counted(keys: Keyspace, now: int, k: string): Option<int> {
    match Served(keys, now, k)
    case None => Some(1)
    case Some(Counter(n)) => if n == INT64_MAX then None else Some(n + 1)
    case Some(_) => None
  }

  /** Every command of the rate check went well and the count is above the
      limit. */
  function Limited(req: SendRequest, keys: Keyspace, now: int, limit: int, fate: Fate): bool {
    var count := Counted(keys, now, "rate:" + req.userId + ":" + req.channel);
    fate.onIncr.Fine? && count.Some? && (count.value == 1 ==> fate.onExpire.Fine?) && count.value > limit
  }

  /** The user a lookup ends with: the cached one, else the row. */
  function FindUser(id: Id, keys: Keyspace, now: int, db: Accounts, f: Cache.Faults): Option<User> {
    var cached := if f.onGet.Fine? then Served(keys, now, "user:" + id) else None;
    match cached
    case Some(UserDoc(u)) => Some(u)
    case Some(PrefsDoc(_)) => Some(User("", "", "", "", ""))
    case _ =>
      if f.onRead.Fine? && id in db.users then
        match db.users[id]
        case UserRow(email, Some(phone), Some(token), Some(platform)) => Some(User(id, email, phone, token, platform))
        case _ => None
      else None
  }

  /** The preferences a lookup ends with: the cached ones, else the row, else
      every channel on. */
  function FindPrefs(id: Id, keys: Keyspace, now: int, db: Accounts, f: Cache.Faults): Option<Preferences> {
    var cached := if f.onGet.Fine? then Served(keys, now, "prefs:" + id) else None;
    match cached
    case Some(PrefsDoc(p)) => Some(p)
    case Some(UserDoc(_)) => Some(Preferences("", false, false, false))
    case _ =>
      if !f.onRead.Fine? then None
      else if id !in db.prefs then Some(Preferences(id, true, true, true))
      else
        match db.prefs[id]
        case PrefsRow(Some(email), Some(sms), Some(push)) => Some(Preferences(id, email, sms, push))
        case _ => None
  }

  function ChannelNamed(name: string): Option<Channel> {
    if name == "ios" then Some(IOS)
    else if name == "android" then Some(Android)
    else if name == "sms" then Some(SMS)
    else if name == "email" then Some(Email)
    else None
  }

  /** The preferences let this channel through. */
  predicate Column(channel: string, p: Preferences) {
    if channel == "email" then p.emailEnabled
    else if channel == "sms" then p.smsEnabled
    else (channel == "ios" || channel == "android") && p.pushEnabled
  }

  function DecideOn(req: SendRequest, user: User, prefs: Option<Preferences>, fate: Fate): Decision
    requires ChannelNamed(req.channel).Some?
  {
    if prefs.None? then Refuse(InternalError)
    else if !Column(req.channel, prefs.value) then Refuse(Skipped)
    else Send(Notification(fate.id, req.userId, ChannelNamed(req.channel).value, req.templateId, req.payload, Pending,
                           fate.at, user.email, user.phone, user.deviceToken))
  }

  function DecidePastLimit(req: SendRequest, keys: Keyspace, now: int, db: Accounts, fate: Fate): Decision
    requires ChannelNamed(req.channel).Some?
  {
    match FindUser(req.userId, keys, now, db, fate.user)
    case None => Refuse(UserNotFound)
    case Some(user) => DecideOn(req, user, FindPrefs(req.userId, keys, now, db, fate.prefs), fate)
  }

  function Decide(body: Option<SendRequest>, keys: Keyspace, now: int, limit: int, db: Accounts, fate: Fate): Decision {
    if body.None? || body.value.userId == "" || body.value.templateId == "" || ChannelNamed(body.value.channel).None?
    then Refuse(BadRequest)
    else if Limited(body.value, keys, now, limit, fate) then Refuse(RateLimited)
    else DecidePastLimit(body.value, keys, now, db, fate)
  }

  /** The row of a notification: the recipient is not a column. */
  function RowOf(n: Notification): Notification {
    n.(recipientEmail := "", recipientPhone := "", recipientToken := "")
  }

  predicate Fits(n: Notification, ns: Notifications, db: Accounts) {
    n.id !in ns && n.userId in db.users
  }

  /** The decision is carried out: a refusal is the reply and nothing else; a
      notification is saved, published and then accepted. */
  ghost predicate Carried(d: Decision, fate: Fate, db: Accounts, ns: Notifications, log: seq<Broker.Message>,
                          reply: Reply, ns': Notifications, log': seq<Broker.Message>) {
    match d
    case Refuse(r) => reply == r && ns' == ns && log' == log
    case Send(n) =>
      var saved := fate.onSave.Fine? && Fits(n, ns, db);
      && reply == (if saved && fate.onPublish.Fine? then Accepted(n.id) else InternalError)
      && ns' == (if !fate.onSave.Refused? && Fits(n, ns, db) then ns[n.id := RowOf(n)] else ns)
      && log' == log + if saved && !fate.onPublish.Refused?
                       then Broker.Copies(Broker.Message("notifications", n.userId, Broker.Json(n)), fate.copies + 1) else []
  }

  // ---------------------------------------------------------------------
  // Consequences, in columns and entries
  // ---------------------------------------------------------------------

  /** A request for a readable user row, with no preferences row or one that
      turns the channel on, none of it cached, within the limit and without a
      fault, is accepted: its message carries the row's email, phone and token. */
  lemma AcceptedRequests(req: SendRequest, c: Channel, keys: Keyspace, now: int, limit: int, db: Accounts, fate: Fate,
                         ns: Notifications, log: seq<Broker.Message>,
                         reply: Reply, ns': Notifications, log': seq<Broker.Message>)
    requires req.userId != "" && req.templateId != "" && req.userId in db.users
    requires db.users[req.userId].phone.Some? && db.users[req.userId].deviceToken.Some? && db.users[req.userId].platform.Some?
    requires req.userId in db.prefs ==>
               var row := db.prefs[req.userId]; row.emailEnabled.Some? && row.smsEnabled.Some? && row.pushEnabled.Some?
    requires || (req.channel == "email" && c == Email && (req.userId in db.prefs ==> db.prefs[req.userId].emailEnabled.value))
             || (req.channel == "sms" && c == SMS && (req.userId in db.prefs ==> db.prefs[req.userId].smsEnabled.value))
             || (req.channel == "ios" && c == IOS && (req.userId in db.prefs ==> db.prefs[req.userId].pushEnabled.value))
             || (req.channel == "android" && c == Android && (req.userId in db.prefs ==> db.prefs[req.userId].pushEnabled.value))
    requires forall k :: k in keys && (k == "user:" + req.userId || k == "prefs:" + req.userId) ==>
               keys[k].deadline.Some? && keys[k].deadline.value <= now
    requires var k := "rate:" + req.userId + ":" + req.channel;
             if k in keys && (keys[k].deadline.None? || now < keys[k].deadline.value)
             then keys[k].data.Counter? && keys[k].data.n < limit else limit >= 1
    requires fate.onIncr.Fine? && fate.onExpire.Fine? && fate.onSave.Fine? && fate.onPublish.Fine?
    requires fate.user.onRead.Fine? && fate.prefs.onRead.Fine? && fate.id !in ns
    requires Carried(Decide(Some(req), keys, now, limit, db, fate), fate, db, ns, log, reply, ns', log')
    ensures reply == Accepted(fate.id)
    ensures var row := db.users[req.userId];
            var n := Notification(fate.id, req.userId, c, req.templateId, req.payload, Pending, fate.at,
                                  row.email, row.phone.value, row.deviceToken.value);
            && log' == log + Broker.Copies(Broker.Message("notifications", req.userId, Broker.Json(n)), fate.copies + 1)
            && ns' == ns[fate.id := n.(recipientEmail := "", recipientPhone := "", recipientToken := "")]
  {
    assert db.users[req.userId] == UserRow(db.users[req.userId].email, Some(db.users[req.userId].phone.value),
      Some(db.users[req.userId].deviceToken.value), Some(db.users[req.userId].platform.value));
  }

  /** A channel whose column is off, with preferences not cached or cached that
      way, is skipped. */
  lemma OptedOutRequests(req: SendRequest, keys: Keyspace, now: int, limit: int, db: Accounts, fate: Fate, user: User)
    requires req.userId != "" && req.templateId != "" && !Limited(req, keys, now, limit, fate)
    requires FindUser(req.userId, keys, now, db, fate.user) == Some(user)
    requires var k := "prefs:" + req.userId;
             var cached := fate.prefs.onGet.Fine? && k in keys && (keys[k].deadline.None? || now < keys[k].deadline.value);
             if cached then
               keys[k].data.PrefsDoc? &&
               var p := keys[k].data.prefs;
               (req.channel == "email" && !p.emailEnabled) || (req.channel == "sms" && !p.smsEnabled) ||
               ((req.channel == "ios" || req.channel == "android") && !p.pushEnabled)
             else
               fate.prefs.onRead.Fine? && req.userId in db.prefs &&
               var row := db.prefs[req.userId];
               row.emailEnabled.Some? && row.smsEnabled.Some? && row.pushEnabled.Some? &&
               ((req.channel == "email" && !row.emailEnabled.value) || (req.channel == "sms" && !row.smsEnabled.value) ||
                ((req.channel == "ios" || req.channel == "android") && !row.pushEnabled.value))
    ensures Decide(Some(req), keys, now, limit, db, fate) == Refuse(Skipped)
  {
  }

  /** With Redis down the tables alone decide, and nobody is rate limited. */
  lemma RedisDown(body: Option<SendRequest>, keys: Keyspace, now: int, limit: int, db: Accounts, fate: Fate)
    requires !fate.onIncr.Fine? && !fate.user.onGet.Fine? && !fate.prefs.onGet.Fine?
    ensures Decide(body, keys, now, limit, db, fate) == Decide(body, map[], 0, INT64_MAX, db, fate)
    ensures Decide(body, keys, now, limit, db, fate) != Refuse(RateLimited)
  {
  }

  /** A request is rate limited exactly when it is valid and Redis answered a
      count above the limit. */
  lemma RateLimitedIff(req: SendRequest, keys: Keyspace, now: int, limit: int, db: Accounts, fate: Fate)
    ensures Decide(Some(req), keys, now, limit, db, fate) == Refuse(RateLimited) <==>
              && req.userId != "" && req.templateId != ""
              && (req.channel == "ios" || req.channel == "android" || req.channel == "sms" || req.channel == "email")
              && fate.onIncr.Fine?
              && var k := "rate:" + req.userId + ":" + req.channel;
                 if k in keys && (keys[k].deadline.None? || now < keys[k].deadline.value)
                 then keys[k].data.Counter? && keys[k].data.n != INT64_MAX && keys[k].data.n + 1 > limit
                      && (keys[k].data.n == 0 ==> fate.onExpire.Fine?)
                 else fate.onExpire.Fine? && 1 > limit
  {
  }

  /** A cached user is served whatever the database does. */
  lemma CachedUserIsEnough(req: SendRequest, keys: Keyspace, now: int, limit: int, db: Accounts, fate: Fate, u: User)
    requires var k := "user:" + req.userId;
             && fate.user.onGet.Fine? && k in keys && keys[k].data == UserDoc(u)
             && (keys[k].deadline.None? || now < keys[k].deadline.value)
    ensures Decide(Some(req), keys, now, limit, db, fate) != Refuse(UserNotFound)
  {
  }

  // ---------------------------------------------------------------------
  // Keyspaces that decide alike
  // ---------------------------------------------------------------------

  /** Only this key may differ. */
  ghost predicate DifferOnlyAt(a: Keyspace, b: Keyspace, k: string) {
    forall j :: j != k ==> (j in a <==> j in b) && (j in a ==> a[j] == b[j])
  }

  /** The rate check does not touch what the lookups find. */
  lemma CounterIsNotLooked(a: Keyspace, b: Keyspace, req: SendRequest, now: int, db: Accounts, fate: Fate)
    requires DifferOnlyAt(a, b, RateKey(req.userId, req.channel)) && ChannelNamed(req.channel).Some?
    ensures DecidePastLimit(req, a, now, db, fate) == DecidePastLimit(req, b, now, db, fate)
  {
    var u := req.userId;
    FamiliesDisjoint(u, req.channel, u, u);
    assert UserKey(u) == "user:" + u && PrefsKey(u) == "prefs:" + u;
  }

  /** The user lookup does not touch what the preferences lookup finds. */
  lemma UserEntryIsNotPrefs(a: Keyspace, b: Keyspace, u: Id, now: int, db: Accounts, f: Cache.Faults)
    requires DifferOnlyAt(a, b, UserKey(u))
    ensures FindPrefs(u, a, now, db, f) == FindPrefs(u, b, now, db, f)
  {
    FamiliesDisjoint(u, "", u, u);
    assert PrefsKey(u) == "prefs:" + u;
  }
}
