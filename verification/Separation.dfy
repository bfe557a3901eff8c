/** The limiter and the cache share one Redis keyspace. No command of either
    disturbs the other, nor what the same component holds for anyone else. */
module Separation {
  import opened Domain
  import opened Redis
  import C = CacheProtocol
  import opened ApiProtocol
  import opened ApiLaws

  /** Every request past validation names one of the four channels. */
  predicate ChannelsValid(a: State) {
    forall r :: r in a.requests ==>
      a.requests[r].phase == Replied(BadRequest) || ChannelOf(a.requests[r].body.channel).Some?
  }

  lemma ProgressKeepsBody(p: Params, a: State, e: Event)
    requires Enabled(a, e) && !e.Env? && !e.Arrive?
    ensures Progress(p, a, e).body == a.requests[e.r].body
  {
  }

  lemma {:induction false} ChannelsStayValid(p: Params, ss: seq<State>, es: seq<Event>, n: nat)
    requires Run(p, ss, es) && Init(p, ss[0]) && n <= |es|
    ensures ChannelsValid(ss[n])
  {
    if n == 0 {
    } else {
      var a, e := ss[n - 1], es[n - 1];
      ChannelsStayValid(p, ss, es, n - 1);
      assert Next(p, a, e, ss[n]);
      StepHasEffect(p, a, e);
      if !e.Env? && !e.Arrive? {
        ProgressKeepsBody(p, a, e);
      }
    }
  }

  predicate SameEntry(a: State, b: State, k: string) {
    (k in a.cache.keys <==> k in b.cache.keys) && (k in a.cache.keys ==> a.cache.keys[k] == b.cache.keys[k])
  }

  /** A step of a request touches at most the keys of its own kind: INCR and
      EXPIRE the counter of the request's user and channel, SET the entry its
      lookup is about. This holds for every user id, also with colons in it. */
  lemma StepsStayInTheirFamily(p: Params, ss: seq<State>, es: seq<Event>, i: nat, x: C.Subject, v: Id, d: Channel)
    requires Run(p, ss, es) && Init(p, ss[0]) && i < |es| && !es[i].Env?
    ensures var a, b, e := ss[i], ss[i + 1], es[i];
            && (e.Incr? || e.Expire? ==>
                  && e.r in a.requests && SameEntry(a, b, C.KeyOf(x))
                  && (a.requests[e.r].body.userId != v || a.requests[e.r].body.channel != ChannelName(d) ==>
                        SameEntry(a, b, RateKey(v, ChannelName(d)))))
            && (e.Lookup? ==>
                  && SameEntry(a, b, RateKey(v, ChannelName(d)))
                  && (Asked(a, e.step.lookup, x) || SameEntry(a, b, C.KeyOf(x))))
            && (!e.Incr? && !e.Expire? && !e.Lookup? ==> b.cache.keys == a.cache.keys)
  {
    assert Next(p, ss[i], es[i], ss[i + 1]);
    ChannelsStayValid(p, ss, es, i);
    RateKeysAreNotCacheKeys(RateKey(v, ChannelName(d)));
    if es[i].Incr? || es[i].Expire? {
      OwnCounterOnly(p, ss[i], es[i], x, v, d);
    } else if es[i].Lookup? {
      OwnEntryOnly(p, ss[i], es[i], x, v, d);
    }
  }

  lemma OwnCounterOnly(p: Params, a: State, e: Event, x: C.Subject, v: Id, d: Channel)
    requires Enabled(a, e) && (e.Incr? || e.Expire?) && ChannelsValid(a)
    ensures SameEntry(a, Step(p, a, e), C.KeyOf(x))
    ensures a.requests[e.r].body.userId != v || a.requests[e.r].body.channel != ChannelName(d) ==>
              SameEntry(a, Step(p, a, e), RateKey(v, ChannelName(d)))
  {
    var rq := a.requests[e.r];
    RateKeyIsForeign(rq);
    C.SubjectKeys(x, x);
    RateKeyInjective(rq.body.userId, ChannelOf(rq.body.channel).value, v, d);
  }

  lemma OwnEntryOnly(p: Params, a: State, e: Event, x: C.Subject, v: Id, d: Channel)
    requires Enabled(a, e) && e.Lookup?
    ensures SameEntry(a, Step(p, a, e), RateKey(v, ChannelName(d)))
    ensures Asked(a, e.step.lookup, x) || SameEntry(a, Step(p, a, e), C.KeyOf(x))
  {
    var y := a.cache.lookups[e.step.lookup].subject;
    assert IsRateKey(RateKey(v, ChannelName(d)));
    RateKeysAreNotCacheKeys(RateKey(v, ChannelName(d)));
    C.SubjectKeys(y, x);
  }
}
