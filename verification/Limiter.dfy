/** ratelimit.Limiter over the Redis server it calls. */
module Limiter {
  import opened Domain
  import opened Redis
  import opened RateProtocol

  /** The verdict of a call that nothing interrupts; Redis failures fail open. */
  ghost function Answer(p: Params, keys: Keyspace, now: int, onIncr: Fault, onExpire: Fault): Verdict {
    var count := IncrReply(keys, now, p.key);
    if !onIncr.Fine? || count.None? || (count == Some(1) && !onExpire.Fine?) then Verdict(true, true)
    else Verdict(count.value <= p.limit, false)
  }

  /** The keyspace after it: rejected calls count too, and only the call that
      read 1 sets the expiry. */
  ghost function KeysAfter(p: Params, keys: Keyspace, now: int, onIncr: Fault, onExpire: Fault): Keyspace {
    var counted := if onIncr.Applied() then AfterIncr(keys, now, p.key) else keys;
    if onIncr.Fine? && IncrReply(keys, now, p.key) == Some(1) && onExpire.Applied()
    then AfterExpire(counted, now, p.key, p.window) else counted
  }

  /** An uninterrupted call is a run of the protocol that ends with its verdict
      and owes no EXPIRE. */
  lemma SoloRun(p: Params, s: State, c: CallId, onIncr: Fault, onExpire: Fault)
    returns (ss: seq<State>, es: seq<Event>)
    requires c !in s.pending
    ensures Run(p, ss, es) && ss[0] == s && es != []
    ensures ss[|es|].keys == KeysAfter(p, s.keys, s.now, onIncr, onExpire)
    ensures ss[|es|].pending == s.pending && ss[|es|].now == s.now
    ensures Returns(p, ss[|es| - 1], es[|es| - 1]) == Some(Answer(p, s.keys, s.now, onIncr, onExpire))
    ensures forall i :: 0 <= i < |es| - 1 ==> Returns(p, ss[i], es[i]) == None
  {
    ss, es := [s, Step(p, s, Incr(c, onIncr))], [Incr(c, onIncr)];
    if Returns(p, s, Incr(c, onIncr)) == None {
      var t := ss[1];
      assert t.lives != [] && t.pending == s.pending[c := |t.lives| - 1];
      assert t.pending - {c} == s.pending;
      ss, es := ss + [Step(p, t, Expire(c, onExpire))], es + [Expire(c, onExpire)];
    }
  }

  class Limiter {
    const redis: Server
    const limit: int64
    const window: int

    constructor (redis: Server, limit: int64, window: int)
      ensures this.redis == redis && this.limit == limit && this.window == window
    {
      this.redis := redis;
      this.limit := limit;
      this.window := window;
    }

    method Allow(userId: Id, channel: string, onIncr: Fault, onExpire: Fault) returns (verdict: Verdict)
      modifies redis`keys
      ensures var p := Params(RateKey(userId, channel), limit, window);
              && verdict == Answer(p, old(redis.keys), redis.now, onIncr, onExpire)
              && redis.keys == KeysAfter(p, old(redis.keys), redis.now, onIncr, onExpire)
      // Fail open: an error never rejects, and every error is reported.
      ensures verdict.failed ==> verdict.allowed
      ensures !onIncr.Fine? ==> verdict.failed
      // Rejected exactly when INCR, and EXPIRE where it is due, went well and
      // the count read is above the limit.
      ensures !verdict.allowed <==>
                var k, before := RateKey(userId, channel), old(redis.keys);
                onIncr.Fine? &&
                if k in before && (before[k].deadline.None? || redis.now < before[k].deadline.value)
                then before[k].data.Counter? && before[k].data.n != INT64_MAX && before[k].data.n + 1 > limit
                     && (before[k].data.n == 0 ==> onExpire.Fine?)
                else onExpire.Fine? && 1 > limit
      // The call is counted whether or not it is allowed; the first of a window
      // starts it, later ones leave its end alone.
      ensures var k, before := RateKey(userId, channel), old(redis.keys);
              if onIncr.Refused? then redis.keys == before
              else if k in before && (before[k].deadline.None? || redis.now < before[k].deadline.value) then
                before[k].data.Counter? && 0 < before[k].data.n < INT64_MAX ==>
                  redis.keys == before[k := Entry(Counter(before[k].data.n + 1), before[k].deadline)]
              else
                redis.keys == before[k := Entry(Counter(1), if onIncr.Fine? && !onExpire.Refused? then Some(redis.now + window) else None)]
    {
      var key := RateKey(userId, channel);
      var count := redis.Incr(key, onIncr);
      if !onIncr.Fine? || count.None? {
        return Verdict(true, true);
      }
      if count.value == 1 {
        var ok := redis.Expire(key, window, onExpire);
        if !ok {
          return Verdict(true, true);
        }
      }
      verdict := Verdict(count.value <= limit, false);
    }
  }
}
