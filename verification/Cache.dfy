/** store.UserCache: cache-aside reads over Redis and the database. */
module Cache {
  import opened Domain
  import opened Redis
  import opened Store
  import opened CacheProtocol

  /** Outcomes of the three calls a lookup may make. */
  datatype Faults = Faults(onGet: Fault, onRead: Fault, onSet: Fault)

  /** The value a GET yields, when Redis answers and the bytes decode. */
  ghost function Hit(s: State, x: Subject, onGet: Fault): Option<Data> {
    if !onGet.Fine? then None
    else match GetReply(s.keys, s.now, KeyOf(x)) case None => None case Some(d) => Decode(x, d)
  }

  /** The answer of a lookup that nothing interrupts. */
  ghost function Answer(s: State, x: Subject, f: Faults): Result<Data, Failure> {
    match Hit(s, x, f.onGet)
    case Some(v) => Ok(v)
    case None => if f.onRead.Fine? then Query(s.db, x) else Err(Unavailable)
  }

  /** Redis after it: only a miss that the database answered sets the entry. */
  ghost function KeysAfter(ttl: int, s: State, x: Subject, f: Faults): Keyspace {
    var r := Answer(s, x, f);
    if Hit(s, x, f.onGet).None? && r.Ok? && f.onSet.Applied() then AfterSet(s.keys, s.now, KeyOf(x), r.value, ttl)
    else s.keys
  }

  ghost predicate OneLookup(l: LookupId, x: Subject, f: Faults, es: seq<Event>) {
    forall i :: 0 <= i < |es| ==>
      es[i] == Start(l, x) || es[i] == Get(l, f.onGet) || es[i] == Read(l, f.onRead) || es[i] == Fill(l, f.onSet)
  }

  /** The part of a lookup after a miss. */
  lemma MissRun(ttl: int, s: State, l: LookupId, x: Subject, f: Faults, ss0: seq<State>, es0: seq<Event>)
    returns (ss: seq<State>, es: seq<Event>)
    requires Run(ttl, ss0, es0) && OneLookup(l, x, f, es0) && ss0[|es0|] == s
    requires l in s.lookups && s.lookups[l] == Lookup(x, Missed) && Hit(s, x, f.onGet).None?
    ensures Run(ttl, ss, es) && ss[0] == ss0[0] && OneLookup(l, x, f, es)
    ensures ss[|es|] == State(s.db, KeysAfter(ttl, s, x, f), s.now,
                              s.lookups[l := Lookup(x, Done(Answer(s, x, f), s.now))])
  {
    var t;
    ss, es, t := Extend(ttl, ss0, es0, Read(l, f.onRead));
    if Answer(s, x, f).Ok? {
      ss, es, t := Extend(ttl, ss, es, Fill(l, f.onSet));
    }
  }

  /** An uninterrupted lookup is a run of the protocol. */
  lemma SoloRun(ttl: int, s: State, l: LookupId, x: Subject, f: Faults) returns (ss: seq<State>, es: seq<Event>)
    requires l !in s.lookups
    ensures Run(ttl, ss, es) && ss[0] == s && OneLookup(l, x, f, es)
    ensures ss[|es|] == State(s.db, KeysAfter(ttl, s, x, f), s.now,
                              s.lookups[l := Lookup(x, Done(Answer(s, x, f), s.now))])
  {
    var t;
    ss, es, t := Extend(ttl, [s], [], Start(l, x));
    ss, es, t := Extend(ttl, ss, es, Get(l, f.onGet));
    if Hit(s, x, f.onGet).None? {
      ss, es := MissRun(ttl, t, l, x, f, ss, es);
    }
  }

  class UserCache {
    const rdb: Server
    const store: Database
    const ttl: int

    constructor (rdb: Server, store: Database, ttl: int)
      ensures this.rdb == rdb && this.store == store && this.ttl == ttl
    {
      this.rdb := rdb;
      this.store := store;
      this.ttl := ttl;
    }

    /** What a call that runs alone sees of the protocol's state. */
    ghost predicate Sees(s: State)
      reads rdb, store
    {
      s.db == store.accounts && s.keys == rdb.keys && s.now == rdb.now
    }

    method FindByID(id: Id, f: Faults, ghost s: State) returns (r: Result<User, Failure>)
      requires Sees(s)
      modifies rdb`keys
      ensures Answer(s, UserOf(id), f) == match r case Ok(u) => Ok(UserDoc(u)) case Err(e) => Err(e)
      ensures rdb.keys == KeysAfter(ttl, s, UserOf(id), f)
      ensures var k := "user:" + id;
              var served := f.onGet.Fine? && k in old(rdb.keys)
                            && (old(rdb.keys)[k].deadline.None? || rdb.now < old(rdb.keys)[k].deadline.value);
              && (served && old(rdb.keys)[k].data.UserDoc? ==>
                    r == Ok(old(rdb.keys)[k].data.user) && rdb.keys == old(rdb.keys))
              && (!served || old(rdb.keys)[k].data.Garbage? || old(rdb.keys)[k].data.Counter? ==>
                    && (!f.onRead.Fine? ==> r == Err(Unavailable))
                    && (f.onRead.Fine? && id !in store.accounts.users ==> r == Err(NotFound))
                    && (f.onRead.Fine? && id in store.accounts.users ==>
                          var row := store.accounts.users[id];
                          r == if row.phone.Some? && row.deviceToken.Some? && row.platform.Some?
                               then Ok(User(id, row.email, row.phone.value, row.deviceToken.value, row.platform.value))
                               else Err(Unreadable))
                    && (rdb.keys == if r.Ok? && !f.onSet.Refused?
                                    then old(rdb.keys)[k := Entry(UserDoc(r.value), Some(rdb.now + ttl))] else old(rdb.keys)))
    {
      var data := rdb.Get(UserKey(id), f.onGet);
      if data.Ok? && data.value.Some? {
        match data.value.value {
          case UserDoc(u) => return Ok(u);
          case PrefsDoc(_) => return Ok(User("", "", "", "", ""));
          case _ =>
        }
      }
      r := store.FindUserByID(id, f.onRead);
      if r.Err? {
        return;
      }
      rdb.Set(UserKey(id), UserDoc(r.value), ttl, f.onSet);
    }

    method FindPreferences(userId: Id, f: Faults, ghost s: State) returns (r: Result<Preferences, Failure>)
      requires Sees(s)
      modifies rdb`keys
      ensures Answer(s, PrefsOf(userId), f) == match r case Ok(p) => Ok(PrefsDoc(p)) case Err(e) => Err(e)
      ensures rdb.keys == KeysAfter(ttl, s, PrefsOf(userId), f)
      ensures var k := "prefs:" + userId;
              var served := f.onGet.Fine? && k in old(rdb.keys)
                            && (old(rdb.keys)[k].deadline.None? || rdb.now < old(rdb.keys)[k].deadline.value);
              && (served && old(rdb.keys)[k].data.PrefsDoc? ==>
                    r == Ok(old(rdb.keys)[k].data.prefs) && rdb.keys == old(rdb.keys))
              && (!served || old(rdb.keys)[k].data.Garbage? || old(rdb.keys)[k].data.Counter? ==>
                    && (!f.onRead.Fine? ==> r == Err(Unavailable))
                    && (f.onRead.Fine? && userId !in store.accounts.prefs ==> r == Ok(Preferences(userId, true, true, true)))
                    && (f.onRead.Fine? && userId in store.accounts.prefs ==>
                          var row := store.accounts.prefs[userId];
                          r == if row.emailEnabled.Some? && row.smsEnabled.Some? && row.pushEnabled.Some?
                               then Ok(Preferences(userId, row.emailEnabled.value, row.smsEnabled.value, row.pushEnabled.value))
                               else Err(Unreadable))
                    && (rdb.keys == if r.Ok? && !f.onSet.Refused?
                                    then old(rdb.keys)[k := Entry(PrefsDoc(r.value), Some(rdb.now + ttl))] else old(rdb.keys)))
    {
      var data := rdb.Get(PrefsKey(userId), f.onGet);
      if data.Ok? && data.value.Some? {
        match data.value.value {
          case PrefsDoc(p) => return Ok(p);
          case UserDoc(_) => return Ok(Preferences("", false, false, false));
          case _ =>
        }
      }
      r := store.FindPreferences(userId, f.onRead);
      if r.Err? {
        return;
      }
      rdb.Set(PrefsKey(userId), PrefsDoc(r.value), ttl, f.onSet);
    }
  }
}
