/** What stands behind each reply of a request, in every run. */
module Replies {
  import opened Domain
  import opened Redis
  import opened Store
  import C = CacheProtocol
  import opened ApiProtocol
  import opened ApiLaws
  import Separation
  import opened Decision

  /** Event i is an INCR of request r that Redis answered with this count. */
  ghost predicate ReadCount(ss: seq<State>, es: seq<Event>, i: int, r: ReqId, count: int) {
    && 0 <= i < |es| < |ss| && es[i] == Incr(r, Fine) && r in ss[i].requests
    && var c := ss[i].cache;
       var k := "rate:" + ss[i].requests[r].body.userId + ":" + ss[i].requests[r].body.channel;
       if k in c.keys && (c.keys[k].deadline.None? || c.now < c.keys[k].deadline.value)
       then c.keys[k].data.Counter? && c.keys[k].data.n != INT64_MAX && count == c.keys[k].data.n + 1
       else count == 1
  }

  ghost predicate ReadOver(ss: seq<State>, es: seq<Event>, n: int, r: ReqId, limit: int) {
    exists i, count :: i < n && ReadCount(ss, es, i, r, count) && count > limit
  }

  ghost predicate ReadOne(ss: seq<State>, es: seq<Event>, n: int, r: ReqId) {
    exists i :: i < n && ReadCount(ss, es, i, r, 1)
  }

  ghost predicate RateReason(p: Params, ss: seq<State>, es: seq<Event>, n: nat, r: ReqId, rq: Request) {
    && (rq.phase.Expiring? ==> ReadOne(ss, es, n, r))
    && (rq.verdict.Some? && !rq.verdict.value.allowed ==> ReadOver(ss, es, n, r, p.limit))
    && (rq.phase == Replied(RateLimited) ==> rq.verdict.Some? && !rq.verdict.value.allowed)
    && (rq.phase.Checked? || rq.phase.FindingUser? ==> rq.verdict.Some?)
  }

  ghost predicate LookupReason(c: C.State, r: ReqId, rq: Request) {
    && (rq.phase == Replied(UserNotFound) ==>
          UserLookup(r) in c.lookups && c.lookups[UserLookup(r)].phase.Done? && c.lookups[UserLookup(r)].phase.result.Err?)
    && (rq.phase == Replied(Skipped) ==>
          && PrefsLookup(r) in c.lookups && c.lookups[PrefsLookup(r)].phase.Done?
          && c.lookups[PrefsLookup(r)].phase.result.Ok? && c.lookups[PrefsLookup(r)].phase.result.value.PrefsDoc?
          && !Column(rq.body.channel, c.lookups[PrefsLookup(r)].phase.result.value.prefs))
    && (rq.phase.Saving? ==>
          && PrefsLookup(r) in c.lookups && c.lookups[PrefsLookup(r)].phase.Done?
          && c.lookups[PrefsLookup(r)].phase.result.Ok? && c.lookups[PrefsLookup(r)].phase.result.value.PrefsDoc?
          && Column(rq.body.channel, c.lookups[PrefsLookup(r)].phase.result.value.prefs))
  }

  lemma ReadsStay(ss: seq<State>, es: seq<Event>, n: nat, r: ReqId, limit: int)
    ensures ReadOne(ss, es, n, r) ==> ReadOne(ss, es, n + 1, r)
    ensures ReadOver(ss, es, n, r, limit) ==> ReadOver(ss, es, n + 1, r, limit)
  {
  }

  lemma {:induction false} RateReasons(p: Params, ss: seq<State>, es: seq<Event>, n: nat)
    requires Run(p, ss, es) && Init(p, ss[0]) && n <= |es|
    ensures forall r :: r in ss[n].requests ==> RateReason(p, ss, es, n, r, ss[n].requests[r])
  {
    if n == 0 {
    } else {
      RateReasons(p, ss, es, n - 1);
      var a, e := ss[n - 1], es[n - 1];
      assert Next(p, a, e, ss[n]);
      StepHasEffect(p, a, e);
      forall r | r in ss[n].requests ensures RateReason(p, ss, es, n, r, ss[n].requests[r]) {
        ReadsStay(ss, es, n - 1, r, p.limit);
        if !e.Env? && e.r == r {
          RateReasonStep(p, ss, es, n - 1);
        }
      }
    }
  }

  lemma RateReasonStep(p: Params, ss: seq<State>, es: seq<Event>, n: nat)
    requires n < |es| < |ss| && Enabled(ss[n], es[n]) && !es[n].Env?
    requires es[n].r in ss[n].requests ==> RateReason(p, ss, es, n, es[n].r, ss[n].requests[es[n].r])
    ensures RateReason(p, ss, es, n + 1, es[n].r, Progress(p, ss[n], es[n]))
  {
    var e := es[n];
    ReadsStay(ss, es, n, e.r, p.limit);
    if e.Incr? && e.fault.Fine? {
      var count := IncrReply(ss[n].cache.keys, ss[n].cache.now, KeyOf(ss[n].requests[e.r]));
      if count.Some? {
        assert ReadCount(ss, es, n, e.r, count.value);
      }
    }
  }

  lemma LookupReasonStep(p: Params, a: State, e: Event, b: State, r: ReqId)
    requires Enabled(a, e) && Effect(p, a, e, b) && LookupsGrow(a.cache, b.cache, CacheEvent(p, a, e))
    requires r in b.requests && (r in a.requests ==> LookupReason(a.cache, r, a.requests[r]))
    requires !e.Env? && e.r == r && r in a.requests && !e.Arrive? ==>
               a.requests[r].phase == Replied(BadRequest) || ChannelOf(a.requests[r].body.channel).Some?
    requires e.GotUser? ==> OfKind(a.cache, UserLookup(e.r))
    ensures LookupReason(b.cache, r, b.requests[r])
  {
  }

  /** The lookup's answer, if it has a good one, is a user. */
  ghost predicate OfKind(c: C.State, l: C.LookupId) {
    l in c.lookups && c.lookups[l].phase.Done? && c.lookups[l].phase.result.Ok? ==> c.lookups[l].phase.result.value.UserDoc?
  }

  lemma UserAnswersAreUsers(p: Params, ss: seq<State>, es: seq<Event>, n: nat)
    requires Run(p, ss, es) && Init(p, ss[0]) && n < |es| && es[n].GotUser?
    ensures OfKind(ss[n].cache, UserLookup(es[n].r))
  {
    assert Next(p, ss[n], es[n], ss[n + 1]);
    ReachableInv(p, ss, es, n);
    assert RequestOk(ss[n], es[n].r);
    var l := UserLookup(es[n].r);
    var lookup := ss[n].cache.lookups[l];
    if lookup.phase.result.Ok? {
      var j, m, f := AnswerWasTrue(p, ss, es, n, l, lookup.subject, lookup.phase.result.value);
    }
  }

  ghost predicate LookupReasonsHold(a: State) {
    forall r :: r in a.requests ==> LookupReason(a.cache, r, a.requests[r])
  }

  lemma {:induction false} LookupReasons(p: Params, ss: seq<State>, es: seq<Event>, n: nat)
    requires Run(p, ss, es) && Init(p, ss[0]) && n <= |es|
    ensures LookupReasonsHold(ss[n])
  {
    if n == 0 {
    } else {
      LookupReasons(p, ss, es, n - 1);
      LookupReasonsNext(p, ss, es, n - 1);
    }
  }

  lemma LookupReasonsNext(p: Params, ss: seq<State>, es: seq<Event>, n: nat)
    requires Run(p, ss, es) && Init(p, ss[0]) && n < |es|
    requires LookupReasonsHold(ss[n])
    ensures LookupReasonsHold(ss[n + 1])
  {
    var a, e, b := ss[n], es[n], ss[n + 1];
    CacheGrows(p, ss, es, n);
    assert Effect(p, a, e, b) by {
      assert Next(p, a, e, b);
      StepHasEffect(p, a, e);
    }
    assert Separation.ChannelsValid(a) by {
      Separation.ChannelsStayValid(p, ss, es, n);
    }
    assert e.GotUser? ==> OfKind(a.cache, UserLookup(e.r)) by {
      if e.GotUser? {
        UserAnswersAreUsers(p, ss, es, n);
      }
    }
    forall r | r in b.requests ensures LookupReason(b.cache, r, b.requests[r]) {
      LookupReasonStep(p, a, e, b, r);
    }
  }

  lemma CacheGrows(p: Params, ss: seq<State>, es: seq<Event>, n: nat)
    requires Run(p, ss, es) && Init(p, ss[0]) && n < |es|
    ensures Enabled(ss[n], es[n]) && LookupsGrow(ss[n].cache, ss[n + 1].cache, CacheEvent(p, ss[n], es[n]))
  {
    assert Next(p, ss[n], es[n], ss[n + 1]);
    ReachableInv(p, ss, es, n);
    CacheStepEnabled(p, ss[n], es[n]);
    CacheStepGrows(p.ttl, ss[n].cache, CacheEvent(p, ss[n], es[n]));
  }

  /** A request is turned away with 429 only when Redis answered its INCR and
      the count was above the limit; a Redis error never does it. */
  lemma RateLimitedWasOver(p: Params, ss: seq<State>, es: seq<Event>, n: nat, r: ReqId)
    requires Run(p, ss, es) && Init(p, ss[0]) && n <= |es| && At(ss[n], r, Replied(RateLimited))
    ensures exists i, count :: i < n && ReadCount(ss, es, i, r, count) && count > p.limit
  {
    RateReasons(p, ss, es, n);
    assert RateReason(p, ss, es, n, r, ss[n].requests[r]);
  }

  /** A 404 means that the lookup of the user failed; "skipped" that the
      preferences looked up do not let the request's channel through. */
  lemma RefusalsHaveReasons(p: Params, ss: seq<State>, es: seq<Event>, n: nat, r: ReqId)
    requires Run(p, ss, es) && Init(p, ss[0]) && n <= |es| && r in ss[n].requests
    ensures ss[n].requests[r].phase == Replied(UserNotFound) ==>
              HasAnswer(ss[n].cache, UserLookup(r)) && ss[n].cache.lookups[UserLookup(r)].phase.result.Err?
    ensures ss[n].requests[r].phase == Replied(Skipped) ==>
              && HasAnswer(ss[n].cache, PrefsLookup(r)) && ss[n].cache.lookups[PrefsLookup(r)].phase.result.Ok?
              && ss[n].cache.lookups[PrefsLookup(r)].phase.result.value.PrefsDoc?
              && !Column(ss[n].requests[r].body.channel, ss[n].cache.lookups[PrefsLookup(r)].phase.result.value.prefs)
    ensures ss[n].requests[r].phase.Saving? ==>
              && HasAnswer(ss[n].cache, PrefsLookup(r)) && ss[n].cache.lookups[PrefsLookup(r)].phase.result.Ok?
              && ss[n].cache.lookups[PrefsLookup(r)].phase.result.value.PrefsDoc?
              && Column(ss[n].requests[r].body.channel, ss[n].cache.lookups[PrefsLookup(r)].phase.result.value.prefs)
  {
    LookupReasons(p, ss, es, n);
    assert LookupReason(ss[n].cache, r, ss[n].requests[r]);
  }
}
