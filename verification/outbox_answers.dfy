/**
 What an answer does to an event: accepted is delivered, refused is a dead letter, failed is tried again until the
 policy gives up. Stated of whole runs and passes, in terms of the answer, the tries and the clock alone.
 */
module OutboxAnswers {
  import opened Prelude
  import opened Outbox

  /** Not yet tried, or not past the horizon: it is sent. */
  predicate InTime(policy: Policy, e: Event, at: Time) {
    e.attempts == 0 || policy.horizon.None? || at < e.createdAt + policy.horizon.value
  }

  /** After `tries` tries the policy gives up at this time. */
  predicate GivesUp(policy: Policy, e: Event, tries: nat, at: Time) {
    || (policy.maxAttempts.Some? && tries >= policy.maxAttempts.value)
    || (policy.horizon.Some? && at >= e.createdAt + policy.horizon.value)
  }

  predicate IsDue(w: World, name: Name) {
    && name in w.events && name in w.sends
    && var e := w.events[name];
    && (e.status == Pending || e.status == RetryLater)
    && (e.nextAttemptAt.Some? ==> e.nextAttemptAt.value <= w.now)
  }

  /** What the event is after a delivery that began at `before` and was over at `after`. */
  predicate Answers(policy: Policy, e: Event, e': Event, answer: Answer, before: Time, after: Time) {
    && e'.createdAt == e.createdAt && e'.eventType == e.eventType && e'.occurredAt == e.occurredAt
    && (if !InTime(policy, e, before) then
          e'.status == DeadLetter && e'.attempts == e.attempts
        else match answer
          case Accepts => e'.status == Delivered
          case Refuses => e'.status == DeadLetter && e'.attempts == e.attempts + 1
          case Fails =>
            && e'.attempts == e.attempts + 1
            && (GivesUp(policy, e, e.attempts + 1, after) ==> e'.status == DeadLetter)
            && (!GivesUp(policy, e, e.attempts + 1, after) ==>
                  && e'.status == RetryLater
                  && e'.nextAttemptAt == Some(after + Min(Pow2(e.attempts + 1), 3600) * SECOND)))
  }

  lemma SettledAnswers(policy: Policy, e: Event, answer: Answer, before: Time, after: Time)
    ensures Answers(policy, e, Settled(policy, e, answer, before, after), answer, before, after)
  {
  }

  lemma DeliveryAnswers(w: World, policy: Policy, name: Name, answer: Answer, wait: Time, call: Time)
    requires IsDue(w, name)
    ensures var w' := Step(w, policy, Dispatched(name, answer, wait, call));
            && name in w'.events && name in w'.sends
            && Answers(policy, w.events[name], w'.events[name], answer, w.now + wait, w.now + wait + call)
            && w'.sends[name] == w.sends[name] + (if InTime(policy, w.events[name], w.now + wait) then 1 else 0)
  {
    SettledAnswers(policy, w.events[name], answer, w.now + wait, w.now + wait + call);
  }

  lemma {:induction false} SettledStays(w: World, policy: Policy, later: seq<Action>, name: Name)
    requires name in w.events && name in w.sends
    requires w.events[name].status == Delivered || w.events[name].status == DeadLetter
    ensures var w' := Run(w, policy, later);
            && name in w'.events && name in w'.sends
            && w'.events[name] == w.events[name] && w'.sends[name] == w.sends[name]
    decreases |later|
  {
    if later != [] { SettledStays(Step(w, policy, later[0]), policy, later[1..], name); }
  }

  lemma EveryEventCounted(actions: seq<Action>, policy: Policy)
    ensures Run(EMPTY, policy, actions).events.Keys == Run(EMPTY, policy, actions).sends.Keys
  {
    RunKeeps(EMPTY, policy, actions);
  }

  /** Over every run: a due event sent in time and accepted is delivered for good, whatever came before and however
      often it had failed; refused it is a dead letter at that send; either way it is never sent again. */
  lemma AnsweredForGood(actions: seq<Action>, later: seq<Action>, policy: Policy, name: Name, answer: Answer,
      wait: Time, call: Time)
    requires !answer.Fails?
    requires var w := Run(EMPTY, policy, actions); IsDue(w, name) && InTime(policy, w.events[name], w.now + wait)
    ensures var w := Run(EMPTY, policy, actions);
            var w' := Run(EMPTY, policy, actions + [Dispatched(name, answer, wait, call)] + later);
            && name in w'.events && name in w'.sends
            && w'.events[name].status == (if answer.Accepts? then Delivered else DeadLetter)
            && w'.sends[name] == w.sends[name] + 1
  {
    var w, a := Run(EMPTY, policy, actions), Dispatched(name, answer, wait, call);
    RunAppends(EMPTY, policy, actions, [a]);
    RunAppends(EMPTY, policy, actions + [a], later);
    assert Run(w, policy, [a]) == Step(w, policy, a);
    DeliveryAnswers(w, policy, name, answer, wait, call);
    SettledStays(Step(w, policy, a), policy, later, name);
  }

  /** A send that fails leaves the event to be tried again, later by the backoff, exactly until its tries or its time
      are used up; past its time it is given up unsent. */
  lemma FailedIsRetried(actions: seq<Action>, policy: Policy, name: Name, wait: Time, call: Time)
    requires IsDue(Run(EMPTY, policy, actions), name)
    ensures var w := Run(EMPTY, policy, actions);
            var w' := Run(EMPTY, policy, actions + [Dispatched(name, Fails, wait, call)]);
            var e, after := w.events[name], w.now + wait + call;
            var sent := InTime(policy, e, w.now + wait);
            && name in w'.events && name in w'.sends
            && (w'.events[name].status == RetryLater <==> sent && !GivesUp(policy, e, e.attempts + 1, after))
            && (w'.events[name].status != RetryLater ==> w'.events[name].status == DeadLetter)
            && w'.events[name].attempts == e.attempts + (if sent then 1 else 0)
            && w'.sends[name] == w.sends[name] + (if sent then 1 else 0)
            && (w'.events[name].status == RetryLater ==>
                  w'.events[name].nextAttemptAt == Some(after + Min(Pow2(e.attempts + 1), 3600) * SECOND))
  {
    var w, a := Run(EMPTY, policy, actions), Dispatched(name, Fails, wait, call);
    RunAppends(EMPTY, policy, actions, [a]);
    assert Run(w, policy, [a]) == Step(w, policy, a);
    DeliveryAnswers(w, policy, name, Fails, wait, call);
  }

  // ---------------------------------------------------------------------------------------------------------------
  // What a pass counts
  // ---------------------------------------------------------------------------------------------------------------

  /** The sends of a pass that were in time and accepted. */
  function AcceptedSends(policy: Policy, w: Weather, events: map<Name, Event>, clocks: seq<Time>, fetched: seq<Name>)
    : set<nat>
    requires |clocks| == |fetched| && forall n :: n in fetched ==> n in events
  {
    set k | 0 <= k < |fetched| && w.answers(k).Accepts? && InTime(policy, events[fetched[k]], clocks[k])
  }

  function Places(statuses: seq<Status>, status: Status): set<nat> {
    if statuses == [] then {}
    else
      var n := |statuses| - 1;
      Places(statuses[..n], status) + if statuses[n] == status then {n} else {}
  }

  lemma {:induction false} PlacesHold(statuses: seq<Status>, status: Status, k: nat)
    ensures k in Places(statuses, status) <==> k < |statuses| && statuses[k] == status
  {
    if statuses != [] { PlacesHold(statuses[..|statuses| - 1], status, k); }
  }

  lemma {:induction false} CountIsCardinality(statuses: seq<Status>, status: Status)
    ensures Count(statuses, status) == |Places(statuses, status)|
  {
    if statuses != [] {
      var n := |statuses| - 1;
      CountIsCardinality(statuses[..n], status);
      PlacesHold(statuses[..n], status, n);
    }
  }

  lemma CountIs(statuses: seq<Status>, status: Status, places: set<nat>)
    requires forall k: nat :: k in places <==> k < |statuses| && statuses[k] == status
    ensures Count(statuses, status) == |places|
  {
    CountIsCardinality(statuses, status);
    forall k: nat ensures k in places <==> k in Places(statuses, status) { PlacesHold(statuses, status, k); }
    assert places == Places(statuses, status);
  }

  lemma DeliveredWhenAccepted(policy: Policy, w: Weather, events: map<Name, Event>, now: Time, fetched: seq<Name>,
      k: nat)
    requires Distinct(fetched) && k < |fetched| && forall n :: n in fetched ==> n in events
    ensures var pass := Pass(policy, w, events, now, fetched);
            && |pass.clocks| == |pass.statuses| == |fetched| && fetched[k] in events
            && (pass.statuses[k] == Delivered <==>
                  w.answers(k).Accepts? && InTime(policy, events[fetched[k]], pass.clocks[k]))
  {
    var pass := Pass(policy, w, events, now, fetched);
    PassRecords(policy, w, events, now, fetched);
    PassSettlesEach(policy, w, events, now, fetched, k);
    SettledAnswers(policy, events[fetched[k]], w.answers(k), pass.clocks[k], pass.clocks[k] + w.calls(k));
  }

  /** A pass reports as delivered exactly the sends that were accepted. */
  lemma DeliveredCountsAccepted(policy: Policy, w: Weather, events: map<Name, Event>, now: Time, fetched: seq<Name>)
    requires Distinct(fetched) && forall n :: n in fetched ==> n in events
    ensures var pass := Pass(policy, w, events, now, fetched);
            && |pass.clocks| == |fetched|
            && Tally(pass.statuses).delivered == |AcceptedSends(policy, w, events, pass.clocks, fetched)|
  {
    var pass := Pass(policy, w, events, now, fetched);
    PassRecords(policy, w, events, now, fetched);
    var accepted := AcceptedSends(policy, w, events, pass.clocks, fetched);
    forall k: nat ensures k in accepted <==> k < |pass.statuses| && pass.statuses[k] == Delivered {
      if k < |fetched| { DeliveredWhenAccepted(policy, w, events, now, fetched, k); }
    }
    CountIs(pass.statuses, Delivered, accepted);
  }
}
