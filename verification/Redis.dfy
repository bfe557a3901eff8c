/** The Redis keyspace that the limiter and the user cache share: its commands
    as functions of the stored map and the clock, and the three key families. */
module Redis {
  import opened Domain

  /** What the API server stores. JSON is kept abstract: a user or preferences
      document, or bytes that no json.Unmarshal accepts. */
  datatype Data =
    | Counter(n: int)
    | UserDoc(user: User)
    | PrefsDoc(prefs: Preferences)
    | Garbage

  /** A stored value and the instant from which Redis no longer serves it. */
  datatype Entry = Entry(data: Data, deadline: Option<int>)

  type Keyspace = map<string, Entry>

  predicate Live(r: Keyspace, now: int, k: string) {
    k in r && (r[k].deadline.None? || now < r[k].deadline.value)
  }

  /** GET: a missing or expired key is redis.Nil. */
  function GetReply(r: Keyspace, now: int, k: string): Option<Data> {
    if Live(r, now, k) then Some(r[k].data) else None
  }

  /** SET with an expiry. */
  function AfterSet(r: Keyspace, now: int, k: string, d: Data, ttl: int): Keyspace {
    r[k := Entry(d, Some(now + ttl))]
  }

  /** INCR: a missing key counts from zero and gets no expiry; a live one keeps
      its own. None when the stored value is not a counter or would overflow. */
  function IncrReply(r: Keyspace, now: int, k: string): Option<int> {
    if !Live(r, now, k) then Some(1)
    else match r[k].data
         case Counter(n) => if n == INT64_MAX then None else Some(n + 1)
         case _ => None
  }

  function AfterIncr(r: Keyspace, now: int, k: string): Keyspace {
    match IncrReply(r, now, k)
    case None => r
    case Some(n) => r[k := Entry(Counter(n), if Live(r, now, k) then r[k].deadline else None)]
  }

  /** EXPIRE: no effect on a missing key. */
  function AfterExpire(r: Keyspace, now: int, k: string, window: int): Keyspace {
    if Live(r, now, k) then r[k := r[k].(deadline := Some(now + window))] else r
  }

  // ---------------------------------------------------------------------
  // Keys
  // ---------------------------------------------------------------------

  function RateKey(userId: Id, channel: string): string { "rate:" + userId + ":" + channel }

  function UserKey(id: Id): string { "user:" + id }

  function PrefsKey(userId: Id): string { "prefs:" + userId }

  ghost predicate IsRateKey(k: string) {
    exists u, c :: k == RateKey(u, c)
  }

  ghost predicate IsCacheKey(k: string) {
    exists id :: k == UserKey(id) || k == PrefsKey(id)
  }

  /** The three families are disjoint, whatever the user ids contain. */
  lemma FamiliesDisjoint(u: Id, c: string, v: Id, w: Id)
    ensures RateKey(u, c) != UserKey(v)
    ensures RateKey(u, c) != PrefsKey(v)
    ensures UserKey(v) != PrefsKey(w)
  {
    assert RateKey(u, c)[0] == 'r' && UserKey(v)[0] == 'u' && PrefsKey(w)[0] == 'p';
    assert PrefsKey(v)[0] == 'p';
  }

  lemma RateKeysAreNotCacheKeys(k: string)
    requires IsRateKey(k)
    ensures !IsCacheKey(k)
  {
    var u, c :| k == RateKey(u, c);
    forall id ensures k != UserKey(id) && k != PrefsKey(id) {
      FamiliesDisjoint(u, c, id, id);
    }
  }

  lemma CacheKeysInjective(u: Id, v: Id)
    ensures UserKey(u) == UserKey(v) ==> u == v
    ensures PrefsKey(u) == PrefsKey(v) ==> u == v
  {
    assert UserKey(u)[5..] == u && UserKey(v)[5..] == v;
    assert PrefsKey(u)[6..] == u && PrefsKey(v)[6..] == v;
  }

  /** The position after the last colon. */
  function AfterLastColon(s: string): (i: nat)
    ensures i <= |s|
  {
    if s == [] then 0
    else if s[|s| - 1] == ':' then |s|
    else AfterLastColon(s[..|s| - 1])
  }

  /** Reads a rate key back: the channel is what follows the last colon. */
  function ParseRateKey(k: string): (Id, string)
    requires |k| >= 5
  {
    var i := AfterLastColon(k);
    (if 6 <= i then k[5..i - 1] else [], k[i..])
  }

  lemma {:induction false} LastColonBefore(p: string, c: string)
    requires ':' !in c
    ensures AfterLastColon(p + ":" + c) == |p| + 1
  {
    var s := p + ":" + c;
    if c == [] {
      assert s[|s| - 1] == ':';
    } else {
      assert s[|s| - 1] == c[|c| - 1];
      assert s[..|s| - 1] == p + ":" + c[..|c| - 1];
      LastColonBefore(p, c[..|c| - 1]);
    }
  }

  /** A rate key determines its user and channel, for every user id, whenever
      the channel has no colon. */
  lemma RateKeyParses(u: Id, c: string)
    requires ':' !in c
    ensures |RateKey(u, c)| >= 5 && ParseRateKey(RateKey(u, c)) == (u, c)
  {
    assert RateKey(u, c) == ("rate:" + u) + ":" + c;
    LastColonBefore("rate:" + u, c);
    var k := RateKey(u, c);
    assert k[5..5 + |u|] == u;
    assert k[6 + |u|..] == c;
  }

  lemma ChannelNamesHaveNoColon(c: Channel)
    ensures ':' !in ChannelName(c)
  {
  }

  lemma ChannelNameInjective(c: Channel, d: Channel)
    ensures ChannelName(c) == ChannelName(d) ==> c == d
  {
  }

  /** Two requests share a counter exactly when user and channel agree. This
      needs the channel to be validated first: see UnvalidatedChannelsCollide. */
  lemma RateKeyInjective(u: Id, c: Channel, v: Id, d: Channel)
    ensures RateKey(u, ChannelName(c)) == RateKey(v, ChannelName(d)) <==> u == v && c == d
  {
    ChannelNamesHaveNoColon(c);
    ChannelNamesHaveNoColon(d);
    RateKeyParses(u, ChannelName(c));
    RateKeyParses(v, ChannelName(d));
    ChannelNameInjective(c, d);
  }

  /** Without the channel check two users could share a counter. */
  lemma UnvalidatedChannelsCollide()
    ensures RateKey("a:b", "c") == RateKey("a", "b:c")
  {
  }

  // ---------------------------------------------------------------------
  // The server as a mutable object
  // ---------------------------------------------------------------------

  class Server {
    var keys: Keyspace
    var now: int

    constructor ()
      ensures keys == map[] && now == 0
    {
      keys := map[];
      now := 0;
    }

    method Incr(k: string, fault: Fault) returns (reply: Option<int>)
      modifies this`keys
      ensures fault.Applied() ==> keys == AfterIncr(old(keys), now, k)
      ensures !fault.Applied() ==> keys == old(keys)
      ensures reply == if fault.Fine? then IncrReply(old(keys), now, k) else None
    {
      reply := if fault.Fine? then IncrReply(keys, now, k) else None;
      if fault.Applied() {
        keys := AfterIncr(keys, now, k);
      }
    }

    method Expire(k: string, window: int, fault: Fault) returns (ok: bool)
      modifies this`keys
      ensures keys == if fault.Applied() then AfterExpire(old(keys), now, k, window) else old(keys)
      ensures ok == fault.Fine?
    {
      ok := fault.Fine?;
      if fault.Applied() {
        keys := AfterExpire(keys, now, k, window);
      }
    }

    /** Err is a Redis error, Ok(None) is redis.Nil. */
    method Get(k: string, fault: Fault) returns (reply: Result<Option<Data>, ()>)
      ensures reply == if fault.Fine? then Ok(GetReply(keys, now, k)) else Err(())
    {
      reply := if fault.Fine? then Ok(GetReply(keys, now, k)) else Err(());
    }

    method Set(k: string, d: Data, ttl: int, fault: Fault)
      modifies this`keys
      ensures keys == if fault.Applied() then AfterSet(old(keys), now, k, d, ttl) else old(keys)
    {
      if fault.Applied() {
        keys := AfterSet(keys, now, k, d, ttl);
      }
    }
  }
}
