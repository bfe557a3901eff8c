/** What drawing a fresh id for every notification buys: no two requests at
    work ever share one, and messages that do are copies of one another. */
module Identity {
  import opened Domain
  import opened Store
  import Broker
  import opened ApiProtocol
  import opened ApiLaws

  /** The id a request has drawn and not yet handed to the topic. */
  function Current(rq: Request): Option<Id> {
    if rq.phase.Saving? || rq.phase.Publishing? then Some(rq.phase.n.id) else None
  }

  /** A topic message about this notification. */
  predicate About(m: Published, id: Id) {
    m.message.value.Json? && m.message.value.n.id == id
  }

  predicate RequestIds(a: State) {
    && (forall r :: r in a.requests && Current(a.requests[r]).Some? ==> Current(a.requests[r]).value in a.ids)
    && (forall r :: r in a.requests && a.requests[r].phase.Saving? ==> a.requests[r].phase.n.id !in a.notifications)
    && (forall q, r | q in a.requests && r in a.requests && Current(a.requests[q]).Some? ::
          Current(a.requests[q]) == Current(a.requests[r]) ==> q == r)
  }

  predicate TopicIds(a: State) {
    && (forall k :: 0 <= k < |a.topic| ==> a.topic[k].message.value.Json? && a.topic[k].message.value.n.id in a.ids)
    && (forall k, r :: 0 <= k < |a.topic| && r in a.requests && Current(a.requests[r]).Some? ==>
          !About(a.topic[k], Current(a.requests[r]).value))
    && (forall j, k | 0 <= j < k < |a.topic| ::
          a.topic[j].message.value.n.id == a.topic[k].message.value.n.id ==> a.topic[j] == a.topic[k])
  }

  predicate IdsOk(a: State) {
    a.notifications.Keys <= a.ids && RequestIds(a) && TopicIds(a)
  }

  /** How a step moves ids. */
  ghost predicate IdEffect(a: State, e: Event, b: State) {
    if e.Env? then b.requests == a.requests && b.notifications == a.notifications && b.topic == a.topic && b.ids == a.ids
    else
      && e.r in b.requests && b.requests == a.requests[e.r := b.requests[e.r]]
      && b.ids == (if e.GotPrefs? then a.ids + {e.id} else a.ids)
      && (e.GotPrefs? ==> e.id !in a.ids)
      && var before := if e.r in a.requests then Current(a.requests[e.r]) else None;
         var after := Current(b.requests[e.r]);
         && (after.None? || (if e.GotPrefs? then after == Some(e.id) else after == before))
         && (b.requests[e.r].phase.Saving? && !e.GotPrefs? ==> b.notifications == a.notifications && a.requests[e.r].phase.Saving?)
         && (b.notifications.Keys == a.notifications.Keys ||
             (before.Some? && b.notifications.Keys == a.notifications.Keys + {before.value}))
         && (b.topic == a.topic ||
             (before.Some? && after.None? && a.topic <= b.topic &&
              forall k :: |a.topic| <= k < |b.topic| ==> b.topic[k] == b.topic[|a.topic|] && About(b.topic[k], before.value)))
  }

  lemma StepMovesIds(p: Params, a: State, e: Event)
    requires Enabled(a, e)
    ensures IdEffect(a, e, Step(p, a, e))
  {
  }

  lemma RequestIdsStay(a: State, e: Event, b: State)
    requires IdsOk(a) && IdEffect(a, e, b)
    ensures RequestIds(b)
  {
  }

  lemma TopicIdsStay(a: State, e: Event, b: State)
    requires IdsOk(a) && IdEffect(a, e, b)
    ensures TopicIds(b)
  {
  }

  lemma StepKeepsIds(p: Params, a: State, e: Event)
    requires IdsOk(a) && Enabled(a, e)
    ensures IdsOk(Step(p, a, e))
  {
    StepMovesIds(p, a, e);
    RequestIdsStay(a, e, Step(p, a, e));
    TopicIdsStay(a, e, Step(p, a, e));
  }

  lemma {:induction false} ReachableIds(p: Params, ss: seq<State>, es: seq<Event>, n: nat)
    requires Run(p, ss, es) && Init(p, ss[0]) && n <= |es|
    ensures IdsOk(ss[n])
  {
    if n == 0 {
    } else {
      ReachableIds(p, ss, es, n - 1);
      assert Next(p, ss[n - 1], es[n - 1], ss[n]);
      StepKeepsIds(p, ss[n - 1], es[n - 1]);
    }
  }

  /** A notification has at most one message, perhaps in several copies. */
  lemma OneMessagePerNotification(p: Params, ss: seq<State>, es: seq<Event>, n: nat, id: Id, j: nat, k: nat)
    requires Run(p, ss, es) && Init(p, ss[0]) && n <= |es|
    requires j < |ss[n].topic| && k < |ss[n].topic| && About(ss[n].topic[j], id) && About(ss[n].topic[k], id)
    ensures ss[n].topic[j] == ss[n].topic[k]
  {
    ReachableIds(p, ss, es, n);
  }

  /** The handler's Save can meet only one constraint of the table: without a
      fault it fails exactly when the user's row has meanwhile gone. */
  lemma SaveFailsIff(p: Params, ss: seq<State>, es: seq<Event>, i: nat)
    requires Run(p, ss, es) && Init(p, ss[0]) && i < |es| && es[i].Save? && es[i].fault.Fine?
    ensures At(ss[i + 1], es[i].r, Replied(InternalError)) <==>
            es[i].r in ss[i].requests && ss[i].requests[es[i].r].body.userId !in ss[i].cache.db.users
  {
    assert Next(p, ss[i], es[i], ss[i + 1]);
    ReachableIds(p, ss, es, i);
    ReachableInv(p, ss, es, i);
    assert RequestOk(ss[i], es[i].r);
  }
}
