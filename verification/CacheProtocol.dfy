/** UserCache.FindByID and FindPreferences as concurrent lookups: GET, database
    read and SET are separate steps, the tables change underneath, and Redis
    may fail, lose or spoil entries. Both lookups are the same protocol over
    different keys and queries. */
module CacheProtocol {
  import opened Domain
  import opened Redis
  import opened Store

  type LookupId = nat

  datatype Subject = UserOf(id: Id) | PrefsOf(id: Id)

  function KeyOf(x: Subject): string {
    match x
    case UserOf(id) => UserKey(id)
    case PrefsOf(id) => PrefsKey(id)
  }

  /** What the store answers when asked directly. */
  function Query(db: Accounts, x: Subject): Result<Data, Failure> {
    match x
    case UserOf(id) => (match SelectUser(db, id) case Ok(u) => Ok(UserDoc(u)) case Err(f) => Err(f))
    case PrefsOf(id) => (match SelectPrefs(db, id) case Ok(p) => Ok(PrefsDoc(p)) case Err(f) => Err(f))
  }

  /** json.Unmarshal into the type the lookup wants. A document of the other
      type shares no field names, so it decodes to the zero value. */
  function Decode(x: Subject, d: Data): Option<Data> {
    match (x, d)
    case (UserOf(_), UserDoc(_)) => Some(d)
    case (PrefsOf(_), PrefsDoc(_)) => Some(d)
    case (UserOf(_), PrefsDoc(_)) => Some(UserDoc(User("", "", "", "", "")))
    case (PrefsOf(_), UserDoc(_)) => Some(PrefsDoc(Preferences("", false, false, false)))
    case _ => None
  }

  /** Where a lookup stands. An answer carries the time it was decided. */
  datatype Phase =
    | Asking
    | Missed
    | Filling(value: Data)
    | Done(result: Result<Data, Failure>, at: int)

  datatype Lookup = Lookup(subject: Subject, phase: Phase)

  datatype State = State(db: Accounts, keys: Keyspace, now: int, lookups: map<LookupId, Lookup>)

  datatype Event =
    | Tick(ms: nat)
    | Write(db: Accounts)
    | Spoil(key: string)
    | Drop(key: string)
    | Foreign(key: string, entry: Entry)
    | Start(lookup: LookupId, subject: Subject)
    | Get(lookup: LookupId, fault: Fault)
    | Read(lookup: LookupId, fault: Fault)
    | Fill(lookup: LookupId, fault: Fault)

  predicate At(s: State, l: LookupId, p: Phase) {
    l in s.lookups && s.lookups[l].phase == p
  }

  ghost predicate Enabled(s: State, e: Event) {
    match e
    case Tick(_) => true
    case Write(_) => true
    case Spoil(k) => k in s.keys
    case Drop(_) => true
    case Foreign(k, _) => !IsCacheKey(k)
    case Start(l, _) => l !in s.lookups
    case Get(l, _) => At(s, l, Asking)
    case Read(l, _) => At(s, l, Missed)
    case Fill(l, _) => l in s.lookups && s.lookups[l].phase.Filling?
  }

  function Move(s: State, l: LookupId, p: Phase): State
    requires l in s.lookups
  {
    s.(lookups := s.lookups[l := s.lookups[l].(phase := p)])
  }

  /** The GET is a hit only if Redis answers and the bytes decode. */
  function AfterGet(s: State, l: LookupId, fault: Fault): Phase
    requires l in s.lookups
  {
    var x := s.lookups[l].subject;
    if !fault.Fine? then Missed
    else match GetReply(s.keys, s.now, KeyOf(x))
         case None => Missed
         case Some(d) => match Decode(x, d) case None => Missed case Some(v) => Done(Ok(v), s.now)
  }

  function AfterRead(s: State, l: LookupId, fault: Fault): Phase
    requires l in s.lookups
  {
    if !fault.Fine? then Done(Err(Unavailable), s.now)
    else match Query(s.db, s.lookups[l].subject)
         case Ok(v) => Filling(v)
         case Err(f) => Done(Err(f), s.now)
  }

  function Step(ttl: int, s: State, e: Event): State
    requires e.Get? || e.Read? || e.Fill? ==> e.lookup in s.lookups
    requires e.Fill? ==> s.lookups[e.lookup].phase.Filling?
    requires e.Spoil? ==> e.key in s.keys
  {
    match e
    case Tick(ms) => s.(now := s.now + ms)
    case Write(db) => s.(db := db)
    case Spoil(k) => s.(keys := s.keys[k := s.keys[k].(data := Garbage)])
    case Drop(k) => s.(keys := s.keys - {k})
    case Foreign(k, entry) => s.(keys := s.keys[k := entry])
    case Start(l, x) => s.(lookups := s.lookups[l := Lookup(x, Asking)])
    case Get(l, fault) => Move(s, l, AfterGet(s, l, fault))
    case Read(l, fault) => Move(s, l, AfterRead(s, l, fault))
    case Fill(l, fault) =>
      var v := s.lookups[l].phase.value;
      var t := Move(s, l, Done(Ok(v), s.now));
      if fault.Applied() then t.(keys := AfterSet(s.keys, s.now, KeyOf(s.lookups[l].subject), v, ttl)) else t
  }

  ghost predicate Next(ttl: int, s: State, e: Event, t: State) {
    Enabled(s, e) && t == Step(ttl, s, e)
  }

  ghost predicate Run(ttl: int, ss: seq<State>, es: seq<Event>) {
    |ss| == |es| + 1 && forall i :: 0 <= i < |es| ==> Next(ttl, ss[i], es[i], ss[i + 1])
  }

  lemma Extend(ttl: int, ss: seq<State>, es: seq<Event>, e: Event) returns (ss': seq<State>, es': seq<Event>, t: State)
    requires Run(ttl, ss, es) && Enabled(ss[|es|], e)
    ensures t == Step(ttl, ss[|es|], e)
    ensures ss' == ss + [t] && es' == es + [e] && Run(ttl, ss', es')
  {
    t := Step(ttl, ss[|es|], e);
    ss', es' := ss + [t], es + [e];
  }

  lemma SubjectKeys(x: Subject, y: Subject)
    ensures IsCacheKey(KeyOf(x))
    ensures KeyOf(x) == KeyOf(y) ==> x == y
  {
    match x {
      case UserOf(u) => assert KeyOf(x) == UserKey(u);
      case PrefsOf(u) => assert KeyOf(x) == PrefsKey(u);
    }
    CacheKeysInjective(x.id, y.id);
    FamiliesDisjoint(x.id, "", x.id, y.id);
    FamiliesDisjoint(x.id, "", y.id, x.id);
  }

  // ---------------------------------------------------------------------
  // Bounded staleness
  // ---------------------------------------------------------------------

  ghost predicate Init(s: State) {
    s.lookups == map[] && forall x :: KeyOf(x) !in s.keys
  }

  /** Event j is the database read of a lookup of x, which found v there. */
  ghost predicate ReadFound(ss: seq<State>, es: seq<Event>, j: int, l: LookupId, x: Subject, v: Data) {
    0 <= j < |es| < |ss| && es[j] == Read(l, Fine) && Query(ss[j].db, x) == Ok(v)
  }

  /** Event m is the SET attempt of the lookup whose database read is event j. */
  ghost predicate Origin(ss: seq<State>, es: seq<Event>, j: int, m: int, x: Subject, v: Data) {
    && 0 <= j < m < |es| < |ss| && es[m].Fill?
    && ReadFound(ss, es, j, es[m].lookup, x, v)
  }

  ghost predicate EntriesHaveOrigin(ttl: int, ss: seq<State>, es: seq<Event>, n: nat)
    requires n < |ss|
  {
    forall x, v :: KeyOf(x) in ss[n].keys && Decode(x, ss[n].keys[KeyOf(x)].data) == Some(v) ==>
      exists j, m :: m < n && Origin(ss, es, j, m, x, v) &&
        ss[n].keys[KeyOf(x)].deadline == Some(ss[m].now + ttl)
  }

  ghost predicate FillsHaveReads(ss: seq<State>, es: seq<Event>, n: nat)
    requires n < |ss|
  {
    forall l :: l in ss[n].lookups && ss[n].lookups[l].phase.Filling? ==>
      exists j :: j < n && ReadFound(ss, es, j, l, ss[n].lookups[l].subject, ss[n].lookups[l].phase.value)
  }

  /** A value answered at time t was read at event j and stored, or offered for
      storing, at event m, with t inside the entry's lifetime. */
  ghost predicate AnswersHaveOrigin(ttl: int, ss: seq<State>, es: seq<Event>, n: nat)
    requires n < |ss|
  {
    forall l :: l in ss[n].lookups && ss[n].lookups[l].phase.Done? && ss[n].lookups[l].phase.result.Ok? ==>
      exists j, m :: m < n && Origin(ss, es, j, m, ss[n].lookups[l].subject, ss[n].lookups[l].phase.result.value) &&
        ss[m].now <= ss[n].lookups[l].phase.at < ss[m].now + ttl
  }

  lemma FillKeepsOrigins(ttl: int, ss: seq<State>, es: seq<Event>, n: nat)
    requires Run(ttl, ss, es) && n < |es| && ttl > 0 && es[n].Fill?
    requires EntriesHaveOrigin(ttl, ss, es, n) && FillsHaveReads(ss, es, n) && AnswersHaveOrigin(ttl, ss, es, n)
    ensures EntriesHaveOrigin(ttl, ss, es, n + 1)
    ensures AnswersHaveOrigin(ttl, ss, es, n + 1)
    ensures FillsHaveReads(ss, es, n + 1)
  {
    var s, e, t := ss[n], es[n], ss[n + 1];
    assert Next(ttl, s, e, t);
    var l := e.lookup;
    var x, v := s.lookups[l].subject, s.lookups[l].phase.value;
    var j :| j < n && ReadFound(ss, es, j, l, x, v);
    assert Origin(ss, es, j, n, x, v);
    forall y, w | KeyOf(y) in t.keys && Decode(y, t.keys[KeyOf(y)].data) == Some(w)
      ensures exists j, m :: m < n + 1 && Origin(ss, es, j, m, y, w) && t.keys[KeyOf(y)].deadline == Some(ss[m].now + ttl)
    {
      SubjectKeys(x, y);
      if e.fault.Applied() && y == x {
        assert v.UserDoc? || v.PrefsDoc?;
        assert w == v;
      } else {
        assert t.keys[KeyOf(y)] == s.keys[KeyOf(y)];
      }
    }
  }

  lemma GetKeepsOrigins(ttl: int, ss: seq<State>, es: seq<Event>, n: nat)
    requires Run(ttl, ss, es) && n < |es| && es[n].Get?
    requires EntriesHaveOrigin(ttl, ss, es, n) && AnswersHaveOrigin(ttl, ss, es, n)
    requires forall m :: 0 <= m < n ==> ss[m].now <= ss[n].now
    ensures AnswersHaveOrigin(ttl, ss, es, n + 1)
  {
  }

  lemma OtherStepsKeepEntries(ttl: int, ss: seq<State>, es: seq<Event>, n: nat)
    requires Run(ttl, ss, es) && n < |es| && !es[n].Fill?
    requires EntriesHaveOrigin(ttl, ss, es, n)
    ensures EntriesHaveOrigin(ttl, ss, es, n + 1)
  {
    var s, e, t := ss[n], es[n], ss[n + 1];
    assert Next(ttl, s, e, t);
    forall x, v | KeyOf(x) in t.keys && Decode(x, t.keys[KeyOf(x)].data) == Some(v)
      ensures exists j, m :: m < n + 1 && Origin(ss, es, j, m, x, v) && t.keys[KeyOf(x)].deadline == Some(ss[m].now + ttl)
    {
      SubjectKeys(x, x);
      assert KeyOf(x) in s.keys && t.keys[KeyOf(x)] == s.keys[KeyOf(x)];
      var j, m :| m < n && Origin(ss, es, j, m, x, v) && s.keys[KeyOf(x)].deadline == Some(ss[m].now + ttl);
    }
  }

  lemma OtherStepsKeepFills(ttl: int, ss: seq<State>, es: seq<Event>, n: nat)
    requires Run(ttl, ss, es) && n < |es| && !es[n].Fill?
    requires FillsHaveReads(ss, es, n)
    ensures FillsHaveReads(ss, es, n + 1)
  {
    var s, e, t := ss[n], es[n], ss[n + 1];
    assert Next(ttl, s, e, t);
    forall l | l in t.lookups && t.lookups[l].phase.Filling?
      ensures exists j :: j < n + 1 && ReadFound(ss, es, j, l, t.lookups[l].subject, t.lookups[l].phase.value)
    {
      if e.Read? && e.lookup == l {
        assert ReadFound(ss, es, n, l, t.lookups[l].subject, t.lookups[l].phase.value);
      } else {
        assert t.lookups[l] == s.lookups[l];
      }
    }
  }

  lemma {:induction false} OriginsHold(ttl: int, ss: seq<State>, es: seq<Event>, n: nat)
    requires Run(ttl, ss, es) && Init(ss[0]) && ttl > 0 && n <= |es|
    ensures EntriesHaveOrigin(ttl, ss, es, n) && FillsHaveReads(ss, es, n) && AnswersHaveOrigin(ttl, ss, es, n)
    ensures forall m :: 0 <= m < n ==> ss[m].now <= ss[n].now
  {
    if n == 0 {
    } else {
      OriginsHold(ttl, ss, es, n - 1);
      var s, e, t := ss[n - 1], es[n - 1], ss[n];
      assert Next(ttl, s, e, t);
      if e.Fill? {
        FillKeepsOrigins(ttl, ss, es, n - 1);
      } else {
        OtherStepsKeepEntries(ttl, ss, es, n - 1);
        OtherStepsKeepFills(ttl, ss, es, n - 1);
        if e.Get? {
          GetKeepsOrigins(ttl, ss, es, n - 1);
        } else {
          forall l | l in t.lookups && t.lookups[l].phase.Done? && t.lookups[l].phase.result.Ok?
            ensures l in s.lookups && t.lookups[l] == s.lookups[l]
          {
          }
        }
      }
    }
  }

  /** Every value a lookup answers was the database's value at an earlier
      instant of the run, and its age stays below the entry lifetime plus the
      time its own fill took from the database read to the SET. Concurrent
      fills, overwrites of newer values by older ones, faults and table changes
      make no difference. */
  lemma BoundedStaleness(ttl: int, ss: seq<State>, es: seq<Event>, n: nat, l: LookupId)
    returns (j: int, m: int)
    requires Run(ttl, ss, es) && Init(ss[0]) && ttl > 0 && n <= |es|
    requires l in ss[n].lookups && ss[n].lookups[l].phase.Done? && ss[n].lookups[l].phase.result.Ok?
    ensures var x, done := ss[n].lookups[l].subject, ss[n].lookups[l].phase;
            && m < n && Origin(ss, es, j, m, x, done.result.value)
            && Query(ss[j].db, x) == done.result
            && ss[j].now <= done.at
            && done.at - ss[j].now < ttl + (ss[m].now - ss[j].now)
  {
    OriginsHold(ttl, ss, es, n);
    var x, done := ss[n].lookups[l].subject, ss[n].lookups[l].phase;
    j, m :| m < n && Origin(ss, es, j, m, x, done.result.value) && ss[m].now <= done.at < ss[m].now + ttl;
    OriginsHold(ttl, ss, es, m);
  }

  // ---------------------------------------------------------------------
  // Transparency
  // ---------------------------------------------------------------------

  /** Every entry a lookup would accept is what the store would answer. */
  ghost predicate Consistent(s: State) {
    forall x, v :: KeyOf(x) in s.keys && Decode(x, s.keys[KeyOf(x)].data) == Some(v) ==> Query(s.db, x) == Ok(v)
  }

  ghost predicate ReadFailed(es: seq<Event>, l: LookupId, m: int) {
    0 <= m < |es| && es[m].Read? && es[m].lookup == l && !es[m].fault.Fine?
  }

  ghost predicate LookupsAgree(s: State, es: seq<Event>, n: nat) {
    forall l :: l in s.lookups ==>
      match s.lookups[l].phase
      case Filling(v) => Query(s.db, s.lookups[l].subject) == Ok(v)
      case Done(r, _) =>
        r == Query(s.db, s.lookups[l].subject) ||
        (r == Err(Unavailable) && exists m :: m < n && ReadFailed(es, l, m))
      case _ => true
  }

  lemma StepKeepsAgreement(ttl: int, ss: seq<State>, es: seq<Event>, n: nat)
    requires Run(ttl, ss, es) && n < |es| && !es[n].Write?
    requires Consistent(ss[n]) && LookupsAgree(ss[n], es, n)
    ensures Consistent(ss[n + 1]) && LookupsAgree(ss[n + 1], es, n + 1)
  {
    var s, e, t := ss[n], es[n], ss[n + 1];
    assert Next(ttl, s, e, t);
    forall x, v | KeyOf(x) in t.keys && Decode(x, t.keys[KeyOf(x)].data) == Some(v)
      ensures Query(t.db, x) == Ok(v)
    {
      SubjectKeys(x, x);
      if e.Fill? {
        SubjectKeys(x, s.lookups[e.lookup].subject);
      }
    }
    forall l | l in t.lookups
      ensures match t.lookups[l].phase
              case Filling(v) => Query(t.db, t.lookups[l].subject) == Ok(v)
              case Done(r, _) =>
                r == Query(t.db, t.lookups[l].subject) ||
                (r == Err(Unavailable) && exists m :: m < n + 1 && ReadFailed(es, l, m))
              case _ => true
    {
      if e.Read? && e.lookup == l && !e.fault.Fine? {
        assert ReadFailed(es, l, n);
      }
    }
  }

  /** While the tables do not change, every run of cached lookups that starts
      from a consistent cache answers exactly what the store would, whatever
      Redis loses, refuses or spoils. The one exception is a lookup whose own
      database read failed. */
  lemma {:induction false} CacheIsTransparent(ttl: int, ss: seq<State>, es: seq<Event>, n: nat)
    requires Run(ttl, ss, es) && n <= |es| && ss[0].lookups == map[] && Consistent(ss[0])
    requires forall i :: 0 <= i < |es| ==> !es[i].Write?
    ensures ss[n].db == ss[0].db && Consistent(ss[n])
    ensures forall l :: l in ss[n].lookups && ss[n].lookups[l].phase.Done? ==>
              || ss[n].lookups[l].phase.result == Query(ss[0].db, ss[n].lookups[l].subject)
              || (ss[n].lookups[l].phase.result == Err(Unavailable) && exists m :: m < n && ReadFailed(es, l, m))
    ensures LookupsAgree(ss[n], es, n)
  {
    if n == 0 {
    } else {
      CacheIsTransparent(ttl, ss, es, n - 1);
      assert Next(ttl, ss[n - 1], es[n - 1], ss[n]);
      StepKeepsAgreement(ttl, ss, es, n - 1);
    }
  }

  // ---------------------------------------------------------------------
  // Hits
  // ---------------------------------------------------------------------

  /** The entry is live and holds a document of the kind the lookup wants. */
  predicate Holds(s: State, x: Subject, v: Data) {
    && KeyOf(x) in s.keys && s.keys[KeyOf(x)].data == v
    && (s.keys[KeyOf(x)].deadline.None? || s.now < s.keys[KeyOf(x)].deadline.value)
    && (if x.UserOf? then v.UserDoc? else v.PrefsDoc?)
  }

  /** A GET that Redis answers with such an entry ends the lookup with it. */
  lemma HitIsServed(ttl: int, ss: seq<State>, es: seq<Event>, i: nat, x: Subject, v: Data)
    requires Run(ttl, ss, es) && i < |es| && es[i].Get? && es[i].fault.Fine?
    requires es[i].lookup in ss[i].lookups && ss[i].lookups[es[i].lookup].subject == x && Holds(ss[i], x, v)
    ensures es[i].lookup in ss[i + 1].lookups
    ensures ss[i + 1].lookups[es[i].lookup] == Lookup(x, Done(Ok(v), ss[i].now)) && ss[i + 1].keys == ss[i].keys
  {
    assert Next(ttl, ss[i], es[i], ss[i + 1]);
  }

  /** The GET failed, found nothing live, or met bytes that are no document. */
  ghost predicate MissedAt(ss: seq<State>, es: seq<Event>, i: int, l: LookupId) {
    && 0 <= i < |es| < |ss| && es[i].Get? && es[i].lookup == l && l in ss[i].lookups
    && var k := KeyOf(ss[i].lookups[l].subject);
       || !es[i].fault.Fine? || k !in ss[i].keys
       || (ss[i].keys[k].deadline.Some? && ss[i].keys[k].deadline.value <= ss[i].now)
       || ss[i].keys[k].data.Garbage? || ss[i].keys[k].data.Counter?
  }

  ghost predicate PastMiss(l: LookupId, ph: Phase, ss: seq<State>, es: seq<Event>, n: nat) {
    ph.Missed? || ph.Filling? ==> exists i :: i < n && MissedAt(ss, es, i, l)
  }

  lemma {:induction false} MissesHaveGets(ttl: int, ss: seq<State>, es: seq<Event>, n: nat)
    requires Run(ttl, ss, es) && Init(ss[0]) && n <= |es|
    ensures forall l :: l in ss[n].lookups ==> PastMiss(l, ss[n].lookups[l].phase, ss, es, n)
  {
    if n == 0 {
    } else {
      MissesHaveGets(ttl, ss, es, n - 1);
      var s, e, t := ss[n - 1], es[n - 1], ss[n];
      assert Next(ttl, s, e, t);
      forall l | l in t.lookups ensures PastMiss(l, t.lookups[l].phase, ss, es, n) {
        if e.Get? && e.lookup == l && t.lookups[l].phase.Missed? {
          assert MissedAt(ss, es, n - 1, l);
        } else if l in s.lookups {
          assert PastMiss(l, s.lookups[l].phase, ss, es, n - 1);
        }
      }
    }
  }

  /** The database is read only after such a GET of the same lookup. */
  lemma ReadsFollowMisses(ttl: int, ss: seq<State>, es: seq<Event>, n: nat)
    requires Run(ttl, ss, es) && Init(ss[0]) && n < |es| && es[n].Read?
    ensures exists i :: i < n && MissedAt(ss, es, i, es[n].lookup)
  {
    MissesHaveGets(ttl, ss, es, n);
    assert Next(ttl, ss[n], es[n], ss[n + 1]);
    assert PastMiss(es[n].lookup, ss[n].lookups[es[n].lookup].phase, ss, es, n);
  }

  /** Event k leaves the entry of x alone: it is not lost or spoiled, and no
      other fill of x lands. */
  ghost predicate Spares(s: State, e: Event, x: Subject) {
    && (e.Spoil? || e.Drop? ==> e.key != KeyOf(x))
    && (e.Fill? && e.lookup in s.lookups && s.lookups[e.lookup].subject == x ==> e.fault.Refused?)
  }

  lemma SparedStays(ttl: int, s: State, e: Event, t: State, x: Subject)
    requires Next(ttl, s, e, t) && Spares(s, e, x) && KeyOf(x) in s.keys
    ensures KeyOf(x) in t.keys && t.keys[KeyOf(x)] == s.keys[KeyOf(x)]
  {
    SubjectKeys(x, x);
    if e.Fill? {
      SubjectKeys(x, s.lookups[e.lookup].subject);
    }
  }

  lemma {:induction false} EntryStays(ttl: int, ss: seq<State>, es: seq<Event>, i: nat, j: nat, x: Subject)
    requires Run(ttl, ss, es) && i <= j <= |es| && KeyOf(x) in ss[i].keys
    requires forall k :: i <= k < j ==> Spares(ss[k], es[k], x)
    ensures KeyOf(x) in ss[j].keys && ss[j].keys[KeyOf(x)] == ss[i].keys[KeyOf(x)]
  {
    if i == j {
    } else {
      EntryStays(ttl, ss, es, i, j - 1, x);
      assert Next(ttl, ss[j - 1], es[j - 1], ss[j]);
      SparedStays(ttl, ss[j - 1], es[j - 1], ss[j], x);
    }
  }

  /** What a lookup stored is what the next ones get, without the database, for
      as long as the entry lives and nothing else happens to it. */
  lemma FillIsServed(ttl: int, ss: seq<State>, es: seq<Event>, i: nat, j: nat, x: Subject, v: Data)
    requires Run(ttl, ss, es) && Init(ss[0]) && ttl > 0 && i < j < |es|
    requires es[i].Fill? && !es[i].fault.Refused? && es[i].lookup in ss[i].lookups
    requires ss[i].lookups[es[i].lookup] == Lookup(x, Filling(v))
    requires forall k :: i < k < j ==> Spares(ss[k], es[k], x)
    requires es[j].Get? && es[j].fault.Fine? && es[j].lookup in ss[j].lookups && ss[j].lookups[es[j].lookup].subject == x
    requires ss[j].now < ss[i].now + ttl
    ensures es[j].lookup in ss[j + 1].lookups && ss[j + 1].lookups[es[j].lookup] == Lookup(x, Done(Ok(v), ss[j].now))
  {
    assert Next(ttl, ss[i], es[i], ss[i + 1]);
    EntryStays(ttl, ss, es, i + 1, j, x);
    OriginsHold(ttl, ss, es, i);
    assert Query(ss[i].db, x).Ok? ==> Query(ss[i].db, x).value.UserDoc? == x.UserOf?;
    HitIsServed(ttl, ss, es, j, x, v);
  }

  // ---------------------------------------------------------------------
  // The staleness bound is attained
  // ---------------------------------------------------------------------

  /** A lookup whose fill takes d, after which the row changes. */
  lemma StaleFill(ttl: int, d: nat, id: Id, db: Accounts, after: Accounts, v: Data)
    returns (ss: seq<State>, es: seq<Event>)
    requires ttl > 0 && Query(db, UserOf(id)) == Ok(v)
    ensures Run(ttl, ss, es) && Init(ss[0]) && |es| == 6 && es[2] == Read(0, Fine) && ss[2].now == 0 && ss[2].db == db
    ensures var t := ss[6];
            && t.db == after && t.now == d && 1 !in t.lookups
            && t.keys == map[UserKey(id) := Entry(v, Some(d + ttl))]
  {
    var t;
    ss, es := [State(db, map[], 0, map[])], [];
    ss, es, t := Extend(ttl, ss, es, Start(0, UserOf(id)));
    ss, es, t := Extend(ttl, ss, es, Get(0, Fine));
    ss, es, t := Extend(ttl, ss, es, Read(0, Fine));
    ss, es, t := Extend(ttl, ss, es, Tick(d));
    ss, es, t := Extend(ttl, ss, es, Fill(0, Fine));
    ss, es, t := Extend(ttl, ss, es, Write(after));
  }

  /** BoundedStaleness is tight: a user can be answered that the database held
      ttl + d - 1 ago and not since, d being the delay of the fill. */
  lemma StalenessIsAttained(ttl: int, d: nat, id: Id, db: Accounts, after: Accounts, u: User)
    returns (ss: seq<State>, es: seq<Event>)
    requires ttl > 0 && SelectUser(db, id) == Ok(u)
    ensures Run(ttl, ss, es) && Init(ss[0]) && |es| == 9 && es[2] == Read(0, Fine) && ss[2].db == db && ss[9].db == after
    ensures var t := ss[9];
            1 in t.lookups && t.lookups[1] == Lookup(UserOf(id), Done(Ok(UserDoc(u)), ss[2].now + ttl + d - 1))
  {
    var t;
    ss, es := StaleFill(ttl, d, id, db, after, UserDoc(u));
    ss, es, t := Extend(ttl, ss, es, Tick(ttl - 1));
    ss, es, t := Extend(ttl, ss, es, Start(1, UserOf(id)));
    ss, es, t := Extend(ttl, ss, es, Get(1, Fine));
  }
}
