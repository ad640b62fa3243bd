/**
 The transactional outbox (modules/outbox/service.py, postgres_store.py): one pass settles every event it fetched, and a
 retry policy bounds how often an event is sent. One dispatcher drains a destination at a time.
 */
module Outbox {
  import opened Prelude
  import ExecutionPolicy

  /** An event id. */
  type Name = nat

  datatype Status = Pending | RetryLater | Delivered | DeadLetter

  datatype Event = Event(
    eventType: string,
    status: Status,
    attempts: nat,
    occurredAt: Time,
    createdAt: Time,
    nextAttemptAt: Option<Time>)

  /** `max_attempts` caps the tries, `horizon` the time since the event was recorded. */
  datatype Policy = Policy(maxAttempts: Option<nat>, horizon: Option<Time>)

  const DEFAULT: Policy := Policy(Some(8), None)
  const SIGNED: Policy := Policy(None, Some(HORIZON))

  const BACKOFF_CEILING_SECONDS: nat := 3600

  /** How the destination answered. */
  datatype Answer = Accepts | Refuses | Fails

  function Backoff(attempt: nat): nat {
    Min(Pow2(attempt), BACKOFF_CEILING_SECONDS)
  }

  predicate Backlog(e: Event) {
    e.status.Pending? || e.status.RetryLater?
  }

  predicate Due(e: Event, now: Time) {
    Backlog(e) && (e.nextAttemptAt.None? || e.nextAttemptAt.value <= now)
  }

  predicate Elapsed(policy: Policy, e: Event, now: Time) {
    policy.horizon.Some? && now - e.createdAt >= policy.horizon.value
  }

  /** A retry that only became due after the horizon is not attempted. */
  predicate TooLate(policy: Policy, e: Event, now: Time) {
    e.attempts > 0 && Elapsed(policy, e, now)
  }

  predicate Exhausted(policy: Policy, e: Event, attempts: nat, now: Time) {
    (policy.maxAttempts.Some? && attempts >= policy.maxAttempts.value) || Elapsed(policy, e, now)
  }

  /** One fetched event settled: `before` and `after` are the clock around its delivery. */
  function Settled(policy: Policy, e: Event, answer: Answer, before: Time, after: Time): Event {
    if TooLate(policy, e, before) then e.(status := DeadLetter, nextAttemptAt := None)
    else
      match answer
      case Accepts => e.(status := Delivered, nextAttemptAt := None)
      case Refuses => e.(status := DeadLetter, attempts := e.attempts + 1, nextAttemptAt := None)
      case Fails =>
        var attempts := e.attempts + 1;
        if Exhausted(policy, e, attempts, after)
            then e.(status := DeadLetter, attempts := attempts, nextAttemptAt := None)
        else e.(status := RetryLater, attempts := attempts, nextAttemptAt := Some(after + Backoff(attempts) * SECOND))
  }

  /** Which types a destination carries; the query takes an empty tuple for no restriction. */
  datatype Selection = Every | Only(types: set<string>) | Except(types: set<string>)

  const PROVISIONING_CHANGED := "com.baobab-platform.erp.provisioning.changed.v1"

  /** The Control Plane's signed delivery and the legacy webhook. */
  const SIGNED_TYPES: Selection := Only({PROVISIONING_CHANGED})
  const LEGACY_TYPES: Selection := Except({PROVISIONING_CHANGED})

  predicate Selects(selection: Selection, e: Event) {
    match selection
    case Every => true
    case Only(types) => types == {} || e.eventType in types
    case Except(types) => e.eventType !in types
  }

  datatype Summary = Summary(delivered: nat, retried: nat, deadLettered: nat)

  function Count(statuses: seq<Status>, status: Status): nat {
    if statuses == [] then 0
    else Count(statuses[..|statuses| - 1], status) + if statuses[|statuses| - 1] == status then 1 else 0
  }

  lemma CountAppends(statuses: seq<Status>, last: Status, status: Status)
    ensures Count(statuses + [last], status) == Count(statuses, status) + if last == status then 1 else 0
  {
    assert (statuses + [last])[..|statuses|] == statuses;
  }

  function Tally(statuses: seq<Status>): Summary {
    Summary(Count(statuses, Delivered), Count(statuses, RetryLater), Count(statuses, DeadLetter))
  }

  /** What the destination and the clock do during one pass. */
  datatype Weather = Weather(answers: nat -> Answer, waits: nat -> Time, calls: nat -> Time)

  class OutboxStore {
    var events: map<Name, Event>
    var now: Time

    constructor ()
      ensures events == map[]
    {
      events, now := map[], 0;
    }

    /** In the caller's transaction; an id is recorded once. */
    method RecordEvent(name: Name, eventType: string, occurredAt: Time) returns (recorded: bool)
      modifies this`events
      ensures recorded <==> name !in old(events)
      ensures events == if recorded then old(events)[name := Event(eventType, Pending, 0, occurredAt, now, None)]
          else old(events)
    {
      recorded := name !in events;
      if recorded {
        events := events[name := Event(eventType, Pending, 0, occurredAt, now, None)];
      }
    }

    predicate Fetchable(name: Name, selection: Selection)
      reads this
    {
      name in events && Due(events[name], now) && Selects(selection, events[name])
    }

    predicate NotAfter(a: Name, b: Name)
      reads this
    {
      a in events && b in events && events[a].occurredAt <= events[b].occurredAt
    }

    /** The due events of a destination, oldest business time first. */
    method FetchPending(limit: nat, selection: Selection) returns (names: seq<Name>)
      ensures forall n :: n in names ==> Fetchable(n, selection)
      ensures Distinct(names)
      ensures forall i, j :: 0 <= i < j < |names| ==> NotAfter(names[i], names[j])
      ensures |names| <= limit
      ensures forall n :: Fetchable(n, selection) && n !in names ==>
                |names| == limit && forall m :: m in names ==> NotAfter(m, n)
    {
      names := [];
      var left := set n | n in events && Fetchable(n, selection);
      while left != {} && |names| < limit
        invariant forall n :: n in left ==> Fetchable(n, selection)
        invariant forall n :: n in names ==> Fetchable(n, selection) && n !in left
        invariant forall i, j :: 0 <= i < j < |names| ==> names[i] != names[j]
        invariant forall i, j :: 0 <= i < j < |names| ==> NotAfter(names[i], names[j])
        invariant forall n, m :: n in names && m in left ==> NotAfter(n, m)
        invariant forall n :: Fetchable(n, selection) ==> n in names || n in left
        invariant |names| <= limit
        decreases left
      {
        var oldest := Oldest(left);
        names := names + [oldest];
        left := left - {oldest};
      }
    }

    method Oldest(candidates: set<Name>) returns (oldest: Name)
      requires candidates != {} && forall n :: n in candidates ==> n in events
      ensures oldest in candidates
      ensures forall n :: n in candidates ==> events[oldest].occurredAt <= events[n].occurredAt
    {
      oldest :| oldest in candidates;
      var left := candidates - {oldest};
      while left != {}
        invariant left <= candidates && oldest in candidates
        invariant forall n :: n in candidates && n !in left ==> events[oldest].occurredAt <= events[n].occurredAt
        decreases left
      {
        var n :| n in left;
        left := left - {n};
        if events[n].occurredAt < events[oldest].occurredAt {
          oldest := n;
        }
      }
    }

    method MarkDelivered(name: Name)
      requires name in events
      modifies this`events
      ensures events == old(events)[name := old(events)[name].(status := Delivered, nextAttemptAt := None)]
    {
      events := events[name := events[name].(status := Delivered, nextAttemptAt := None)];
    }

    method MarkRetry(name: Name, attempts: nat, delay: nat)
      requires name in events
      modifies this`events
      ensures events == old(events)[name := old(events)[name].(status := RetryLater, attempts := attempts,
                                                              nextAttemptAt := Some(now + delay * SECOND))]
    {
      events := events[name :=
          events[name].(status := RetryLater, attempts := attempts, nextAttemptAt := Some(now + delay * SECOND))];
    }

    method MarkDeadLetter(name: Name, attempts: nat)
      requires name in events
      modifies this`events
      ensures events == old(events)[name :=
          old(events)[name].(status := DeadLetter, attempts := attempts, nextAttemptAt := None)]
    {
      events := events[name := events[name].(status := DeadLetter, attempts := attempts, nextAttemptAt := None)];
    }

    /** One record of the loop: which counter it moves is its new status. */
    method DispatchOne(name: Name, policy: Policy, answer: Answer, wait: Time, call: Time)
      requires name in events
      modifies this
      ensures now == old(now) + wait + (if TooLate(policy, old(events)[name], old(now) + wait) then 0 else call)
      ensures events == old(events)[name :=
          Settled(policy, old(events)[name], answer, old(now) + wait, old(now) + wait + call)]
      ensures !Due(events[name], now)
    {
      var e := events[name];
      ExecutionPolicy.Pow2Grows(0, e.attempts + 1);
      now := now + wait;
      if TooLate(policy, e, now) {
        MarkDeadLetter(name, e.attempts);
        return;
      }
      now := now + call;
      match answer {
        case Accepts => MarkDelivered(name);
        case Refuses => MarkDeadLetter(name, e.attempts + 1);
        case Fails =>
          if Exhausted(policy, e, e.attempts + 1, now) {
            MarkDeadLetter(name, e.attempts + 1);
          } else {
            MarkRetry(name, e.attempts + 1, Backoff(e.attempts + 1));
          }
      }
    }

    /** The k-th delivery of the pass, and the counter it moves. */
    method DispatchNext(name: Name, policy: Policy, w: Weather, k: nat, counted: Summary, ghost earlier: PassState)
      returns (summary: Summary)
      requires name in events && events == earlier.events && now == earlier.now && counted == Tally(earlier.statuses)
      modifies this
      ensures var pass := Delivery(policy, w, earlier, name, k);
              events == pass.events && now == pass.now && summary == Tally(pass.statuses)
    {
      DispatchOne(name, policy, w.answers(k), w.waits(k), w.calls(k));
      TallyGrows(earlier.statuses, events[name].status);
      summary := counted;
      match events[name].status {
        case Delivered => summary := summary.(delivered := summary.delivered + 1);
        case RetryLater => summary := summary.(retried := summary.retried + 1);
        case DeadLetter => summary := summary.(deadLettered := summary.deadLettered + 1);
        case Pending =>
      }
    }

    /** The loop over what was fetched. */
    method DispatchAll(fetched: seq<Name>, policy: Policy, w: Weather) returns (summary: Summary)
      requires forall n :: n in fetched ==> n in events
      modifies this
      ensures var pass := Pass(policy, w, old(events), old(now), fetched);
              events == pass.events && now == pass.now && summary == Tally(pass.statuses)
    {
      summary := Summary(0, 0, 0);
      ghost var start, began := events, now;
      ghost var pass := Pass(policy, w, start, began, []);
      for k := 0 to |fetched|
        invariant pass == Pass(policy, w, start, began, fetched[..k])
        invariant events == pass.events && now == pass.now && summary == Tally(pass.statuses)
      {
        PassGrows(policy, w, start, began, fetched, k);
        summary := DispatchNext(fetched[k], policy, w, k, summary, pass);
        pass := Delivery(policy, w, pass, fetched[k], k);
      }
      assert fetched[..|fetched|] == fetched;
    }

    /** `dispatch_pending`: every fetched event is settled once, nothing else is touched, and the three counters say
        how. */
    method DispatchPending(policy: Policy, limit: nat, selection: Selection, w: Weather)
      returns (summary: Summary, ghost names: seq<Name>)
      modifies this
      ensures |names| <= limit && Distinct(names)
      ensures forall n :: n in names ==>
          n in old(events) && Due(old(events)[n], old(now)) && Selects(selection, old(events)[n])
      ensures events == Pass(policy, w, old(events), old(now), names).events
      ensures summary == Tally(Pass(policy, w, old(events), old(now), names).statuses)
      ensures summary.delivered + summary.retried + summary.deadLettered == |names|
      ensures events.Keys == old(events).Keys && forall n :: n in events && n !in names ==> events[n] == old(events)[n]
      ensures forall n :: n in events ==> events[n].eventType == old(events)[n].eventType
    {
      var fetched := FetchPending(limit, selection);
      names := fetched;
      PassRecords(policy, w, events, now, fetched);
      EveryStatusCounted(Pass(policy, w, events, now, fetched).statuses);
      PassLeavesTheRest(policy, w, events, now, fetched);
      PassKeepsTypes(policy, w, events, now, fetched);
      summary := DispatchAll(fetched, policy, w);
    }

    /** The dispatch worker's run: each configured destination drains its own events under its own policy, and another's
        wait as they are. */
    method DispatchDestinations(signed: bool, legacy: bool, limit: nat, w: Weather, v: Weather)
      modifies this
      ensures events.Keys == old(events).Keys
      ensures forall n :: n in old(events) && events[n] != old(events)[n] ==>
                if old(events)[n].eventType == PROVISIONING_CHANGED then signed else legacy
    {
      Drain(signed, SIGNED, limit, SIGNED_TYPES, w);
      Drain(legacy, DEFAULT, limit, LEGACY_TYPES, v);
    }

    method Drain(configured: bool, policy: Policy, limit: nat, selection: Selection, w: Weather)
      modifies this
      ensures events.Keys == old(events).Keys
      ensures forall n :: n in events ==> events[n].eventType == old(events)[n].eventType
      ensures forall n :: n in events && events[n] != old(events)[n] ==>
                configured && Selects(selection, old(events)[n])
    {
      if configured {
        var _, _ := DispatchPending(policy, limit, selection, w);
      }
    }
  }

  predicate Distinct(names: seq<Name>) {
    forall i, j :: 0 <= i < j < |names| ==> names[i] != names[j]
  }

  /** The table and the clock during a pass, the clock at each delivery and the status each event was left with. */
  datatype PassState = PassState(events: map<Name, Event>, now: Time, clocks: seq<Time>, statuses: seq<Status>)

  /** The k-th delivery. */
  function Delivery(policy: Policy, w: Weather, earlier: PassState, name: Name, k: nat): PassState
    requires name in earlier.events
  {
    var e := earlier.events[name];
    var before := earlier.now + w.waits(k);
    var settled := Settled(policy, e, w.answers(k), before, before + w.calls(k));
    PassState(earlier.events[name := settled], if TooLate(policy, e, before) then before else before + w.calls(k),
              earlier.clocks + [before], earlier.statuses + [settled.status])
  }

  function Pass(policy: Policy, w: Weather, events: map<Name, Event>, now: Time, fetched: seq<Name>): (pass: PassState)
    requires forall n :: n in fetched ==> n in events
    ensures pass.events.Keys == events.Keys
  {
    if fetched == [] then PassState(events, now, [], [])
    else
      var k := |fetched| - 1;
      assert fetched[k] in fetched;
      Delivery(policy, w, Pass(policy, w, events, now, fetched[..k]), fetched[k], k)
  }

  lemma PassGrows(policy: Policy, w: Weather, events: map<Name, Event>, now: Time, fetched: seq<Name>, k: nat)
    requires k < |fetched| && forall n :: n in fetched ==> n in events
    ensures fetched[k] in events
    ensures Pass(policy, w, events, now, fetched[..k + 1])
         == Delivery(policy, w, Pass(policy, w, events, now, fetched[..k]), fetched[k], k)
  {
    assert fetched[..k + 1][..k] == fetched[..k];
    assert fetched[k] in fetched;
  }

  lemma TallyGrows(statuses: seq<Status>, status: Status)
    ensures var t := Tally(statuses);
            Tally(statuses + [status]) == match status
                                          case Delivered => t.(delivered := t.delivered + 1)
                                          case RetryLater => t.(retried := t.retried + 1)
                                          case DeadLetter => t.(deadLettered := t.deadLettered + 1)
                                          case Pending => t
  {
    CountAppends(statuses, status, Delivered);
    CountAppends(statuses, status, RetryLater);
    CountAppends(statuses, status, DeadLetter);
  }

  /** The event was settled by the i-th delivery, as it was when the pass began. */
  predicate SettledOnce(policy: Policy, w: Weather, before: map<Name, Event>, pass: PassState, name: Name, i: nat) {
    && i < |pass.clocks| && i < |pass.statuses| && name in before && name in pass.events
    && pass.events[name] == Settled(policy, before[name], w.answers(i), pass.clocks[i], pass.clocks[i] + w.calls(i))
    && pass.statuses[i] == pass.events[name].status
  }

  lemma {:induction false} PassLeavesTheRest(policy: Policy, w: Weather, events: map<Name, Event>, now: Time,
      fetched: seq<Name>)
    requires forall n :: n in fetched ==> n in events
    ensures forall n :: n in events && n !in fetched ==> Pass(policy, w, events, now, fetched).events[n] == events[n]
  {
    if fetched != [] { PassLeavesTheRest(policy, w, events, now, fetched[..|fetched| - 1]); }
  }

  lemma {:induction false} PassKeepsTypes(policy: Policy, w: Weather, events: map<Name, Event>, now: Time,
      fetched: seq<Name>)
    requires forall n :: n in fetched ==> n in events
    ensures forall n :: n in events ==>
              Pass(policy, w, events, now, fetched).events[n].eventType == events[n].eventType
  {
    if fetched != [] { PassKeepsTypes(policy, w, events, now, fetched[..|fetched| - 1]); }
  }

  lemma {:induction false} PassRecords(policy: Policy, w: Weather, events: map<Name, Event>, now: Time,
      fetched: seq<Name>)
    requires forall n :: n in fetched ==> n in events
    ensures var pass := Pass(policy, w, events, now, fetched);
            |pass.clocks| == |pass.statuses| == |fetched| && forall i :: 0 <= i < |fetched| ==>
                !pass.statuses[i].Pending?
  {
    if fetched != [] { PassRecords(policy, w, events, now, fetched[..|fetched| - 1]); }
  }

  lemma {:induction false} EveryStatusCounted(statuses: seq<Status>)
    requires forall i :: 0 <= i < |statuses| ==> !statuses[i].Pending?
    ensures Count(statuses, Delivered) + Count(statuses, RetryLater) + Count(statuses, DeadLetter) == |statuses|
  {
    if statuses != [] { EveryStatusCounted(statuses[..|statuses| - 1]); }
  }

  lemma DeliverySettles(policy: Policy, w: Weather, before: map<Name, Event>, earlier: PassState, name: Name, k: nat)
    requires name in earlier.events && name in before && earlier.events[name] == before[name]
    requires |earlier.clocks| == |earlier.statuses| == k
    ensures SettledOnce(policy, w, before, Delivery(policy, w, earlier, name, k), name, k)
  {
  }

  lemma DeliveryLeaves(policy: Policy, w: Weather, before: map<Name, Event>, earlier: PassState, name: Name, k: nat,
      other: Name, i: nat)
    requires name in earlier.events && other != name && SettledOnce(policy, w, before, earlier, other, i)
    ensures SettledOnce(policy, w, before, Delivery(policy, w, earlier, name, k), other, i)
  {
  }

  lemma FrontDistinct(fetched: seq<Name>, k: nat)
    requires Distinct(fetched) && k + 1 == |fetched|
    ensures Distinct(fetched[..k]) && fetched[k] !in fetched[..k]
  {
  }

  lemma LastSettled(policy: Policy, w: Weather, events: map<Name, Event>, now: Time, fetched: seq<Name>, k: nat)
    requires k + 1 == |fetched| && fetched[k] !in fetched[..k] && forall n :: n in fetched ==> n in events
    ensures SettledOnce(policy, w, events, Pass(policy, w, events, now, fetched), fetched[k], k)
  {
    assert fetched[k] in fetched;
    PassRecords(policy, w, events, now, fetched[..k]);
    PassLeavesTheRest(policy, w, events, now, fetched[..k]);
    DeliverySettles(policy, w, events, Pass(policy, w, events, now, fetched[..k]), fetched[k], k);
  }

  lemma EarlierStaySettled(policy: Policy, w: Weather, events: map<Name, Event>, now: Time, fetched: seq<Name>,
      k: nat, i: nat)
    requires k + 1 == |fetched| && i < k && fetched[i] != fetched[k] && forall n :: n in fetched ==> n in events
    requires SettledOnce(policy, w, events, Pass(policy, w, events, now, fetched[..k]), fetched[i], i)
    ensures SettledOnce(policy, w, events, Pass(policy, w, events, now, fetched), fetched[i], i)
  {
    assert fetched[k] in fetched;
    DeliveryLeaves(policy, w, events, Pass(policy, w, events, now, fetched[..k]), fetched[k], k, fetched[i], i);
  }

  /** Every fetched event is settled exactly once, as it was when the pass began. */
  lemma {:induction false} PassSettlesEach(policy: Policy, w: Weather, events: map<Name, Event>, now: Time,
      fetched: seq<Name>, i: nat)
    requires Distinct(fetched) && i < |fetched| && forall n :: n in fetched ==> n in events
    ensures SettledOnce(policy, w, events, Pass(policy, w, events, now, fetched), fetched[i], i)
  {
    var k := |fetched| - 1;
    FrontDistinct(fetched, k);
    if i == k {
      LastSettled(policy, w, events, now, fetched, k);
    } else {
      PassSettlesEach(policy, w, events, now, fetched[..k], i);
      assert fetched[..k][i] == fetched[i];
      EarlierStaySettled(policy, w, events, now, fetched, k, i);
    }
  }

  // ---------------------------------------------------------------------------------------------------------------
  // Any number of passes, some of which die
  // ---------------------------------------------------------------------------------------------------------------

  /** The table, and how many sends of each event a pass lived to record. A send whose pass died before marking it is
      repeated and not counted. */
  datatype World = World(events: map<Name, Event>, sends: map<Name, nat>, now: Time)

  datatype Action =
    | Recorded(name: Name, eventType: string, occurredAt: Time)
    | Tick(elapsed: Time)
    | Dispatched(name: Name, answer: Answer, wait: Time, call: Time)
    | DiedSending(name: Name, call: Time)

  /** One record of one pass: it was due when the pass fetched it, and with one dispatcher it still is. */
  function Step(w: World, policy: Policy, a: Action): World {
    match a
    case Recorded(name, eventType, occurredAt) =>
      if name in w.events then w
      else w.(events := w.events[name := Event(eventType, Pending, 0, occurredAt, w.now, None)],
          sends := w.sends[name := 0])
    case Tick(elapsed) => w.(now := w.now + elapsed)
    case Dispatched(name, answer, wait, call) =>
      if name !in w.events || name !in w.sends || !Due(w.events[name], w.now) then w
      else
        var before, after := w.now + wait, w.now + wait + call;
        var late := TooLate(policy, w.events[name], before);
        World(w.events[name := Settled(policy, w.events[name], answer, before, after)],
              if late then w.sends else w.sends[name := w.sends[name] + 1],
              if late then before else after)
    case DiedSending(name, call) => w.(now := w.now + call)
  }

  function Run(w: World, policy: Policy, actions: seq<Action>): World
    decreases |actions|
  {
    if actions == [] then w else Run(Step(w, policy, actions[0]), policy, actions[1..])
  }

  const EMPTY: World := World(map[], map[], 0)

  /** The seconds the first `n` backoffs add up to. */
  function TotalBackoff(n: nat): nat {
    if n == 0 then 0 else TotalBackoff(n - 1) + Backoff(n)
  }

  lemma BackoffAtCeiling(n: nat)
    requires n >= 12
    ensures Backoff(n) == 3600
  {
    assert Pow2(12) == 4096;
    ExecutionPolicy.Pow2Grows(12, n);
  }

  lemma {:induction false} TotalAtCeiling(n: nat)
    requires n >= 11
    ensures TotalBackoff(n) == 4094 + 3600 * (n - 11)
  {
    if n == 11 {
      assert Pow2(4) == 16 && Pow2(8) == 256 && Pow2(11) == 2048;
      assert TotalBackoff(4) == 30;
      assert TotalBackoff(8) == 510;
    } else {
      TotalAtCeiling(n - 1);
      BackoffAtCeiling(n);
    }
  }

  lemma {:induction false} TotalGrows(m: nat, n: nat)
    requires m <= n
    ensures TotalBackoff(m) <= TotalBackoff(n)
  {
    if m < n { TotalGrows(m, n - 1); }
  }

  /** Doubling to an hour, 81 backoffs fit under 72 hours and 82 do not. */
  lemma BackoffsUnderHorizon(n: nat)
    ensures TotalBackoff(n) * SECOND < HORIZON <==> n <= 81
  {
    TotalAtCeiling(81);
    TotalAtCeiling(82);
    if n <= 81 { TotalGrows(n, 81); } else { TotalGrows(82, n); }
  }

  /** What the policy has let happen to one event so far. */
  ghost predicate Within(w: World, policy: Policy, name: Name)
    requires name in w.events && name in w.sends
  {
    SentWithin(w.events[name], w.sends[name], policy, w.now)
  }

  ghost predicate SentWithin(e: Event, sends: nat, policy: Policy, now: Time) {
    && e.createdAt <= now
    && (e.status.Pending? ==> e.attempts == 0 && sends == 0)
    && (e.status.RetryLater? ==>
          && e.attempts == sends && sends >= 1
          && e.nextAttemptAt.Some? && e.createdAt + TotalBackoff(e.attempts) * SECOND <= e.nextAttemptAt.value
          && (policy.maxAttempts.Some? ==> e.attempts < policy.maxAttempts.value)
          && (policy.horizon.Some? ==> TotalBackoff(e.attempts - 1) * SECOND < policy.horizon.value))
    && (policy.maxAttempts.Some? && policy.maxAttempts.value >= 1 ==> sends <= policy.maxAttempts.value)
    && (policy.horizon.Some? && sends >= 2 ==> TotalBackoff(sends - 1) * SECOND < policy.horizon.value)
  }

  ghost predicate Inv(w: World, policy: Policy) {
    && w.events.Keys == w.sends.Keys
    && forall name {:trigger Within(w, policy, name)} :: name in w.events ==> Within(w, policy, name)
  }

  lemma SendKeeps(e: Event, sends: nat, policy: Policy, answer: Answer, now: Time, before: Time, after: Time)
    requires SentWithin(e, sends, policy, now) && Due(e, now) && now <= before <= after && !TooLate(policy, e, before)
    ensures SentWithin(Settled(policy, e, answer, before, after), sends + 1, policy, after)
  {
    assert e.attempts == sends;
    assert e.attempts > 0 ==> e.createdAt + TotalBackoff(e.attempts) * SECOND <= before;
    assert TotalBackoff(e.attempts + 1) == TotalBackoff(e.attempts) + Backoff(e.attempts + 1);
  }

  lemma LateKeeps(e: Event, sends: nat, policy: Policy, answer: Answer, now: Time, before: Time, after: Time)
    requires SentWithin(e, sends, policy, now) && now <= before && TooLate(policy, e, before)
    ensures SentWithin(Settled(policy, e, answer, before, after), sends, policy, before)
  {
  }

  lemma DispatchKeeps(w: World, policy: Policy, a: Action)
    requires Inv(w, policy) && a.Dispatched? && a.name in w.events && Due(w.events[a.name], w.now)
    ensures Within(Step(w, policy, a), policy, a.name)
  {
    var e := w.events[a.name];
    assert Within(w, policy, a.name);
    var before, after := w.now + a.wait, w.now + a.wait + a.call;
    var w' := Step(w, policy, a);
    assert w'.events[a.name] == Settled(policy, e, a.answer, before, after);
    if TooLate(policy, e, before) {
      LateKeeps(e, w.sends[a.name], policy, a.answer, w.now, before, after);
    } else {
      SendKeeps(e, w.sends[a.name], policy, a.answer, w.now, before, after);
    }
  }

  lemma StepKeeps(w: World, policy: Policy, a: Action)
    requires Inv(w, policy)
    ensures Inv(Step(w, policy, a), policy)
  {
    var w' := Step(w, policy, a);
    forall name | name in w'.events ensures Within(w', policy, name) {
      if name in w.events {
        assert Within(w, policy, name);
        if a.Dispatched? && a.name == name && Due(w.events[name], w.now) { DispatchKeeps(w, policy, a); }
      }
    }
  }

  lemma {:induction false} RunKeeps(w: World, policy: Policy, actions: seq<Action>)
    requires Inv(w, policy)
    ensures Inv(Run(w, policy, actions), policy)
    decreases |actions|
  {
    if actions != [] {
      StepKeeps(w, policy, actions[0]);
      RunKeeps(Step(w, policy, actions[0]), policy, actions[1..]);
    }
  }

  /** Under the 72-hour horizon an event gets at most 82 counted sends; under the default policy at most 8. */
  lemma SendsBounded(actions: seq<Action>, name: Name)
    ensures var w := Run(EMPTY, SIGNED, actions); name in w.sends ==> w.sends[name] <= 82
    ensures var w := Run(EMPTY, DEFAULT, actions); name in w.sends ==> w.sends[name] <= 8
  {
    RunKeeps(EMPTY, SIGNED, actions);
    RunKeeps(EMPTY, DEFAULT, actions);
    var w, v := Run(EMPTY, SIGNED, actions), Run(EMPTY, DEFAULT, actions);
    if name in w.sends {
      assert Within(w, SIGNED, name);
      if w.sends[name] >= 2 { BackoffsUnderHorizon(w.sends[name] - 1); }
    }
    if name in v.sends { assert Within(v, DEFAULT, name); }
  }

  lemma {:induction false} RunAppends(w: World, policy: Policy, actions: seq<Action>, later: seq<Action>)
    ensures Run(w, policy, actions + later) == Run(Run(w, policy, actions), policy, later)
    decreases |actions|
  {
    if actions == [] {
      assert actions + later == later;
    } else {
      assert (actions + later)[1..] == actions[1..] + later;
      RunAppends(Step(w, policy, actions[0]), policy, actions[1..], later);
    }
  }

  /** A pass as actions. */
  function ActionsOf(fetched: seq<Name>, w: Weather): seq<Action> {
    if fetched == [] then []
    else
      var k := |fetched| - 1;
      ActionsOf(fetched[..k], w) + [Dispatched(fetched[k], w.answers(k), w.waits(k), w.calls(k))]
  }

  ghost predicate Follows(w: World, after: World, pass: PassState) {
    after.events == pass.events && after.now == pass.now && after.now >= w.now && after.sends.Keys == w.sends.Keys
  }

  /** What one pass of the loop does is a run: what it fetched as due is still due when its turn comes. */
  lemma {:induction false} PassIsARun(policy: Policy, weather: Weather, w: World, fetched: seq<Name>)
    requires Distinct(fetched) && w.events.Keys == w.sends.Keys
    requires forall n :: n in fetched ==> n in w.events && Due(w.events[n], w.now)
    ensures Follows(w, Run(w, policy, ActionsOf(fetched, weather)), Pass(policy, weather, w.events, w.now, fetched))
  {
    if fetched != [] {
      var k := |fetched| - 1;
      FrontDistinct(fetched, k);
      PassIsARun(policy, weather, w, fetched[..k]);
      PassLeavesTheRest(policy, weather, w.events, w.now, fetched[..k]);
      assert fetched[k] in fetched;
      LastActionFollows(policy, weather, w, fetched, k);
    }
  }

  lemma LastActionFollows(policy: Policy, weather: Weather, w: World, fetched: seq<Name>, k: nat)
    requires k + 1 == |fetched| && w.events.Keys == w.sends.Keys && forall n :: n in fetched ==> n in w.events
    requires Follows(w, Run(w, policy, ActionsOf(fetched[..k], weather)),
        Pass(policy, weather, w.events, w.now, fetched[..k]))
    requires var pass := Pass(policy, weather, w.events, w.now, fetched[..k]);
             fetched[k] in pass.events && Due(pass.events[fetched[k]], w.now)
    ensures Follows(w, Run(w, policy, ActionsOf(fetched, weather)), Pass(policy, weather, w.events, w.now, fetched))
  {
    var last := [Dispatched(fetched[k], weather.answers(k), weather.waits(k), weather.calls(k))];
    var earlier := ActionsOf(fetched[..k], weather);
    RunAppends(w, policy, earlier, last);
    LastIsAStep(policy, weather, Run(w, policy, earlier), Pass(policy, weather, w.events, w.now, fetched[..k]),
        fetched[k], k);
  }

  lemma LastIsAStep(policy: Policy, weather: Weather, w: World, earlier: PassState, name: Name, k: nat)
    requires w.events == earlier.events && w.now == earlier.now && w.events.Keys == w.sends.Keys
    requires name in w.events && Due(w.events[name], w.now)
    ensures var last := [Dispatched(name, weather.answers(k), weather.waits(k), weather.calls(k))];
            var after, pass := Run(w, policy, last), Delivery(policy, weather, earlier, name, k);
            after.events == pass.events && after.now == pass.now && after.now >= w.now
                && after.sends.Keys == w.sends.Keys
  {
    var last := [Dispatched(name, weather.answers(k), weather.waits(k), weather.calls(k))];
    assert Run(w, policy, last) == Step(w, policy, last[0]);
  }

  /** Every send fails at once, and is tried again the moment it is due. */
  function AlwaysFailing(name: Name, n: nat): seq<Action> {
    if n == 0 then [Recorded(name, "", 0)]
    else AlwaysFailing(name, n - 1) + [Tick(if n == 1 then 0 else Backoff(n - 1) * SECOND),
        Dispatched(name, Fails, 0, 0)]
  }

  function AfterFailures(name: Name, n: nat): World
    requires n >= 1
  {
    var now := TotalBackoff(n - 1) * SECOND;
    World(map[name := Event("", RetryLater, n, 0, 0, Some(now + Backoff(n) * SECOND))], map[name := n], now)
  }

  /** The policy still tries again after `n` sends that failed as soon as they were due. */
  predicate Patient(policy: Policy, n: nat) {
    (policy == SIGNED && n <= 82) || (policy == DEFAULT && n <= 7)
  }

  lemma {:induction false} FailuresReach(policy: Policy, name: Name, n: nat)
    requires 1 <= n && Patient(policy, n)
    ensures Run(EMPTY, policy, AlwaysFailing(name, n)) == AfterFailures(name, n)
  {
    var more := [Tick(if n == 1 then 0 else Backoff(n - 1) * SECOND), Dispatched(name, Fails, 0, 0)];
    var recorded := World(map[name := Event("", Pending, 0, 0, 0, None)], map[name := 0], 0);
    assert Step(EMPTY, policy, Recorded(name, "", 0)) == recorded;
    assert Run(EMPTY, policy, AlwaysFailing(name, 0)) == recorded;
    if n > 1 { FailuresReach(policy, name, n - 1); }
    var w := if n == 1 then recorded else AfterFailures(name, n - 1);
    RunAppends(EMPTY, policy, AlwaysFailing(name, n - 1), more);
    FailsOnceMore(policy, name, n, w, more);
  }

  lemma EventFailsOnceMore(policy: Policy, e: Event, n: nat)
    requires 1 <= n && Patient(policy, n) && e.attempts == n - 1 && e.createdAt == 0
    ensures var now := TotalBackoff(n - 1) * SECOND;
            Settled(policy, e, Fails, now, now)
            == e.(status := RetryLater, attempts := n, nextAttemptAt := Some(now + Backoff(n) * SECOND))
            && !TooLate(policy, e, now)
  {
    BackoffsUnderHorizon(n - 1);
  }

  /** The event before its n-th failing send. */
  function BeforeFailure(n: nat): Event
    requires n >= 1
  {
    if n == 1 then Event("", Pending, 0, 0, 0, None)
    else Event("", RetryLater, n - 1, 0, 0, Some((TotalBackoff(n - 2) + Backoff(n - 1)) * SECOND))
  }

  lemma SendFailsOnceMore(policy: Policy, name: Name, n: nat)
    requires 1 <= n && Patient(policy, n)
    ensures var now := TotalBackoff(n - 1) * SECOND;
            Step(World(map[name := BeforeFailure(n)], map[name := n - 1], now), policy, Dispatched(name, Fails, 0, 0))
            == AfterFailures(name, n)
  {
    EventFailsOnceMore(policy, BeforeFailure(n), n);
    assert n > 1 ==> TotalBackoff(n - 1) == TotalBackoff(n - 2) + Backoff(n - 1);
  }

  lemma FailsOnceMore(policy: Policy, name: Name, n: nat, w: World, more: seq<Action>)
    requires 1 <= n && Patient(policy, n)
    requires more == [Tick(if n == 1 then 0 else Backoff(n - 1) * SECOND), Dispatched(name, Fails, 0, 0)]
    requires w == if n == 1 then World(map[name := Event("", Pending, 0, 0, 0, None)], map[name := 0], 0)
        else AfterFailures(name, n - 1)
    ensures Run(w, policy, more) == AfterFailures(name, n)
  {
    var ticked := Step(w, policy, more[0]);
    assert ticked == World(map[name := BeforeFailure(n)], map[name := n - 1], TotalBackoff(n - 1) * SECOND);
    assert more[1..][1..] == [];
    assert Run(w, policy, more) == Run(ticked, policy, more[1..]) == Step(ticked, policy, more[1]);
    SendFailsOnceMore(policy, name, n);
  }

  lemma LastFailure(name: Name)
    requires Run(EMPTY, DEFAULT, AlwaysFailing(name, 7)) == AfterFailures(name, 7)
    ensures Run(EMPTY, DEFAULT, AlwaysFailing(name, 8)).sends == map[name := 8]
  {
    var w := AfterFailures(name, 7);
    var more := [Tick(Backoff(7) * SECOND), Dispatched(name, Fails, 0, 0)];
    RunAppends(EMPTY, DEFAULT, AlwaysFailing(name, 7), more);
    var ticked := Step(w, DEFAULT, more[0]);
    assert more[1..][1..] == [];
    assert Run(w, DEFAULT, more) == Run(ticked, DEFAULT, more[1..]) == Step(ticked, DEFAULT, more[1]);
  }

  /** Both bounds are met by an event whose every send fails as soon as it is due. */
  lemma BoundIsMet(name: Name)
    ensures var w := Run(EMPTY, SIGNED, AlwaysFailing(name, 82)); name in w.sends && w.sends[name] == 82
    ensures var w := Run(EMPTY, DEFAULT, AlwaysFailing(name, 8)); name in w.sends && w.sends[name] == 8
  {
    FailuresReach(SIGNED, name, 82);
    FailuresReach(DEFAULT, name, 7);
    LastFailure(name);
  }

  /** Some delivery of the event was answered like this. */
  ghost predicate WasAnswered(actions: seq<Action>, name: Name, answer: Answer) {
    exists i :: 0 <= i < |actions| && actions[i].Dispatched? && actions[i].name == name && actions[i].answer == answer
  }

  lemma AnsweredLater(actions: seq<Action>, name: Name, answer: Answer)
    requires actions != [] && WasAnswered(actions[1..], name, answer)
    ensures WasAnswered(actions, name, answer)
  {
    var i :| 0 <= i < |actions[1..]| && actions[1..][i].Dispatched? && actions[1..][i].name == name
             && actions[1..][i].answer == answer;
    assert actions[i + 1] == actions[1..][i];
  }

  /** An event leaves the backlog only delivered, on the destination's word, or dead-lettered; then it never changes
      again. */
  lemma {:induction false} LeavesSettled(w: World, policy: Policy, actions: seq<Action>, name: Name)
    requires name in w.events
    ensures var w' := Run(w, policy, actions);
            && name in w'.events
            && (!Backlog(w.events[name]) ==> w'.events[name] == w.events[name])
            && (w.events[name].status != Delivered && w'.events[name].status == Delivered ==>
                  WasAnswered(actions, name, Accepts))
    decreases |actions|
  {
    if actions != [] {
      var w1 := Step(w, policy, actions[0]);
      LeavesSettled(w1, policy, actions[1..], name);
      if w1.events[name].status != Delivered && Run(w, policy, actions).events[name].status == Delivered {
        AnsweredLater(actions, name, Accepts);
      } else if w.events[name].status != Delivered && w1.events[name].status == Delivered {
        assert actions[0].Dispatched? && actions[0].name == name && actions[0].answer.Accepts?;
      }
    }
  }

  /** An event is dead-lettered only because the destination refused it, or its tries or its time are used up. */
  lemma {:induction false} DeadForCause(w: World, policy: Policy, actions: seq<Action>, name: Name)
    requires name in w.events
    ensures var w' := Run(w, policy, actions);
            && name in w'.events && w'.now >= w.now
            && var e := w'.events[name];
            (w.events[name].status != DeadLetter && e.status == DeadLetter ==>
               || WasAnswered(actions, name, Refuses)
               || (policy.maxAttempts.Some? && e.attempts >= policy.maxAttempts.value)
               || (policy.horizon.Some? && w'.now - e.createdAt >= policy.horizon.value))
    decreases |actions|
  {
    if actions != [] {
      var w1 := Step(w, policy, actions[0]);
      DeadForCause(w1, policy, actions[1..], name);
      var w' := Run(w, policy, actions);
      if w1.events[name].status != DeadLetter {
        if WasAnswered(actions[1..], name, Refuses) { AnsweredLater(actions, name, Refuses); }
      } else if w.events[name].status != DeadLetter {
        LeavesSettled(w1, policy, actions[1..], name);
        assert w'.events[name] == w1.events[name];
        assert actions[0].Dispatched? && actions[0].name == name;
      }
    }
  }
}
