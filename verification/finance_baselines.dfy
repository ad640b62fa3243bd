/**
 Finance-approved configuration baselines (modules/provisioning/finance_baseline_store.py, migrations 0014 and 0017): an
 append-only store of versions and withdrawals, which version is in force on a date, and the stricter reader inside the
 engine (BaselineFinanceReadiness.java).
 */
module FinanceBaselines {
  import opened Prelude

  /** A calendar day, counted from the epoch in UTC. */
  type Day = nat

  const DAY: Time := 24 * 3600 * SECOND

  function DayOf(t: Time): Day {
    t / DAY
  }

  datatype Key = Key(entity: string, version: nat)

  datatype Terms = Terms(
    currency: string,
    fiscalMonth: int,
    chart: string,
    schema: string,
    tax: string,
    costing: string,
    evidence: string)

  datatype Baseline = Baseline(terms: Terms, effectiveFrom: Day, approvedBy: string, approvedAt: Time)

  datatype Withdrawal = Withdrawal(person: string, at: Time, reason: string, evidence: string)

  datatype Store = Store(baselines: map<Key, Baseline>, withdrawals: map<Key, Withdrawal>)

  const EMPTY: Store := Store(map[], map[])

  datatype Refusal = Placeholder | Synthetic | NoTimeZone | InTheFuture | Constraint | Unknown | AlreadyWithdrawn

  // ---------------------------------------------------------------------------------------------------------------
  // What may be recorded
  // ---------------------------------------------------------------------------------------------------------------

  function TrimLeft(s: string): string {
    if s != [] && s[0] == ' ' then TrimLeft(s[1..]) else s
  }

  function TrimRight(s: string): string {
    if s != [] && s[|s| - 1] == ' ' then TrimRight(s[..|s| - 1]) else s
  }

  function Trim(s: string): string {
    TrimRight(TrimLeft(s))
  }

  predicate Spaces(s: string) {
    forall i :: 0 <= i < |s| ==> s[i] == ' '
  }

  predicate Stripped(s: string) {
    s == "" || (s[0] != ' ' && s[|s| - 1] != ' ')
  }

  lemma {:induction false} LeftSpaces(s: string) returns (before: string)
    ensures s == before + TrimLeft(s) && Spaces(before) && (TrimLeft(s) == "" || TrimLeft(s)[0] != ' ')
  {
    if s != [] && s[0] == ' ' {
      before := LeftSpaces(s[1..]);
      before := [s[0]] + before;
      assert s == [s[0]] + s[1..];
    } else {
      before := "";
    }
  }

  lemma {:induction false} RightSpaces(s: string) returns (after: string)
    ensures s == TrimRight(s) + after && Spaces(after)
    ensures TrimRight(s) == "" || (TrimRight(s)[|TrimRight(s)| - 1] != ' ' && TrimRight(s)[0] == s[0])
  {
    if s != [] && s[|s| - 1] == ' ' {
      var n := |s| - 1;
      after := RightSpaces(s[..n]);
      after := after + [s[n]];
      assert s == s[..n] + [s[n]];
    } else {
      after := "";
    }
  }

  /** Trimming takes the spaces off both ends and nothing else. */
  lemma TrimStrips(s: string) returns (before: string, after: string)
    ensures s == before + Trim(s) + after && Spaces(before) && Spaces(after) && Stripped(Trim(s))
  {
    before := LeftSpaces(s);
    after := RightSpaces(TrimLeft(s));
  }

  /** A configured value: neither blank nor a placeholder. */
  predicate Configured(s: string) {
    Trim(s) != "" && !("REQUIRED_" <= Trim(s))
  }

  const SYNTHETIC: set<string> := {"system", "service", "bootstrap", "automation", "auto", "unknown", "n/a", "none"}

  function Lower(s: string): string {
    seq(|s|, i requires 0 <= i < |s| => if 'A' <= s[i] <= 'Z' then ((s[i] as int) + 32) as char else s[i])
  }

  predicate Accountable(person: string) {
    Lower(Trim(person)) !in SYNTHETIC
  }

  predicate IsCurrency(s: string) {
    |s| == 3 && forall i :: 0 <= i < 3 ==> 'A' <= s[i] <= 'Z'
  }

  function Cleaned(t: Terms): Terms {
    Terms(Trim(t.currency), t.fiscalMonth, Trim(t.chart), Trim(t.schema), Trim(t.tax), Trim(t.costing),
        Trim(t.evidence))
  }

  predicate AllConfigured(t: Terms) {
    && Configured(t.currency) && Configured(t.chart) && Configured(t.schema) && Configured(t.tax)
        && Configured(t.costing)
    && Configured(t.evidence)
  }

  /** The instant a record is about; a naive one has no zone. */
  datatype Stamp = Naive | At(instant: Time)

  function StampRefusal(stamp: Stamp, now: Time): Option<Refusal> {
    if stamp.Naive? then Some(NoTimeZone) else if stamp.instant > now then Some(InTheFuture) else None
  }

  // ---------------------------------------------------------------------------------------------------------------
  // Recording and withdrawing
  // ---------------------------------------------------------------------------------------------------------------

  function VersionsOf(s: Store, entity: string): set<nat> {
    set k | k in s.baselines && k.entity == entity :: k.version
  }

  /** `COALESCE(MAX(version), 0)`. */
  ghost predicate IsLatest(s: Store, entity: string, latest: nat) {
    && (latest == 0 || latest in VersionsOf(s, entity))
    && forall v :: v in VersionsOf(s, entity) ==> v <= latest
  }

  function WithBaseline(s: Store, entity: string, version: nat, b: Baseline): Store {
    s.(baselines := s.baselines[Key(entity, version) := b])
  }

  function WithWithdrawal(s: Store, entity: string, version: nat, w: Withdrawal): Store {
    s.(withdrawals := s.withdrawals[Key(entity, version) := w])
  }

  class BaselineStore {
    var baselines: map<Key, Baseline>
    var withdrawals: map<Key, Withdrawal>

    function Snapshot(): Store
      reads this
    {
      Store(baselines, withdrawals)
    }

    constructor ()
      ensures Snapshot() == EMPTY
    {
      baselines, withdrawals := map[], map[];
    }

    method LatestVersion(entity: string) returns (latest: nat)
      ensures IsLatest(Snapshot(), entity, latest)
    {
      latest := 0;
      var left := baselines.Keys;
      while left != {}
        invariant left <= baselines.Keys
        invariant latest == 0 || Key(entity, latest) in baselines
        invariant forall k :: k in baselines && k !in left && k.entity == entity ==> k.version <= latest
        decreases left
      {
        var k :| k in left;
        left := left - {k};
        if k.entity == entity && k.version > latest {
          latest := k.version;
        }
      }
    }

    /** The next version of the entity's baseline; the approver must be a named person with evidence. */
    method Record(entity: string, terms: Terms, effectiveFrom: Day, approvedBy: string, approvedAt: Stamp, now: Time)
      returns (result: Result<Key, Refusal>)
      modifies this
      ensures result.Ok? <==>
                && Configured(approvedBy) && Accountable(approvedBy) && approvedAt.At? && approvedAt.instant <= now
                && Configured(entity) && AllConfigured(terms)
                && IsCurrency(Trim(terms.currency)) && 1 <= terms.fiscalMonth <= 12
      ensures result == Err(Synthetic) ==> !Accountable(approvedBy)
      ensures result == Err(NoTimeZone) ==> approvedAt.Naive?
      ensures result == Err(InTheFuture) ==> approvedAt.At? && approvedAt.instant > now
      ensures result == Err(Placeholder) ==> !(Configured(approvedBy) && Configured(entity) && AllConfigured(terms))
      ensures result == Err(Constraint) ==> !(IsCurrency(Trim(terms.currency)) && 1 <= terms.fiscalMonth <= 12)
      ensures result != Err(Unknown) && result != Err(AlreadyWithdrawn)
      ensures result.Err? ==> Snapshot() == old(Snapshot())
      ensures result.Ok? ==>
                && approvedAt.At? && approvedAt.instant <= now && Accountable(approvedBy)
                && result.value.entity == Trim(entity) && result.value.version >= 1
                && IsLatest(old(Snapshot()), Trim(entity), result.value.version - 1)
                && Snapshot() == WithBaseline(old(Snapshot()), Trim(entity), result.value.version,
                                              Baseline(Cleaned(terms), effectiveFrom, Trim(approvedBy),
                                                  approvedAt.instant))
    {
      if !Configured(approvedBy) {
        return Err(Placeholder);
      }
      if !Accountable(approvedBy) {
        return Err(Synthetic);
      }
      var refusal := StampRefusal(approvedAt, now);
      if refusal.Some? {
        return Err(refusal.value);
      }
      if !Configured(entity) || !AllConfigured(terms) {
        return Err(Placeholder);
      }
      if !IsCurrency(Trim(terms.currency)) || !(1 <= terms.fiscalMonth <= 12) {
        return Err(Constraint);
      }
      var latest := LatestVersion(Trim(entity));
      var key := Key(Trim(entity), latest + 1);
      baselines := baselines[key := Baseline(Cleaned(terms), effectiveFrom, Trim(approvedBy), approvedAt.instant)];
      result := Ok(key);
    }

    /** A withdrawal is its own fact, recorded once, of a version that exists. */
    method Withdraw(entity: string, version: nat, withdrawnBy: string, withdrawnAt: Stamp, reason: string,
        evidence: string, now: Time)
      returns (result: Result<Key, Refusal>)
      modifies this
      ensures result.Ok? <==>
                && Configured(withdrawnBy) && Accountable(withdrawnBy) && withdrawnAt.At? && withdrawnAt.instant <= now
                && Configured(entity) && Configured(reason) && Configured(evidence)
                && Key(Trim(entity), version) in old(baselines) && Key(Trim(entity), version) !in old(withdrawals)
      ensures result == Err(Synthetic) ==> !Accountable(withdrawnBy)
      ensures result == Err(NoTimeZone) ==> withdrawnAt.Naive?
      ensures result == Err(InTheFuture) ==> withdrawnAt.At? && withdrawnAt.instant > now
      ensures result == Err(Placeholder) ==>
                !(Configured(withdrawnBy) && Configured(entity) && Configured(reason) && Configured(evidence))
      ensures result == Err(Unknown) ==> Key(Trim(entity), version) !in old(baselines)
      ensures result == Err(AlreadyWithdrawn) ==> Key(Trim(entity), version) in old(withdrawals)
      ensures result != Err(Constraint)
      ensures result.Err? ==> Snapshot() == old(Snapshot())
      ensures result.Ok? ==>
                && withdrawnAt.At? && withdrawnAt.instant <= now && Accountable(withdrawnBy)
                && result.value == Key(Trim(entity), version)
                && result.value in old(baselines) && result.value !in old(withdrawals)
                && Snapshot() == WithWithdrawal(old(Snapshot()), Trim(entity), version,
                                                Withdrawal(Trim(withdrawnBy), withdrawnAt.instant, Trim(reason),
                                                    Trim(evidence)))
    {
      if !Configured(withdrawnBy) {
        return Err(Placeholder);
      }
      if !Accountable(withdrawnBy) {
        return Err(Synthetic);
      }
      var refusal := StampRefusal(withdrawnAt, now);
      if refusal.Some? {
        return Err(refusal.value);
      }
      if !Configured(entity) || !Configured(reason) || !Configured(evidence) {
        return Err(Placeholder);
      }
      var key := Key(Trim(entity), version);
      if key !in baselines {
        return Err(Unknown);
      }
      if key in withdrawals {
        return Err(AlreadyWithdrawn);
      }
      withdrawals :=
          withdrawals[key := Withdrawal(Trim(withdrawnBy), withdrawnAt.instant, Trim(reason), Trim(evidence))];
      result := Ok(key);
    }

    /** `effective`: the query's ORDER BY ... LIMIT 1. */
    method Effective(entity: string, on: Day) returns (version: Option<nat>)
      ensures version == EffectiveVersion(Snapshot(), entity, on)
    {
      version := None;
      var left := baselines.Keys;
      while left != {}
        invariant left <= baselines.Keys
        invariant version.Some? ==> InForce(Snapshot(), Key(entity, version.value), on)
        invariant forall k :: k in baselines && k !in left && k.entity == entity && InForce(Snapshot(), k, on) ==>
                    version.Some? && NotBefore(Snapshot(), Key(entity, version.value), k)
        decreases left
      {
        var k :| k in left;
        left := left - {k};
        if k.entity == entity && InForce(Snapshot(), k, on)
           && (version.None? || !NotBefore(Snapshot(), Key(entity, version.value), k))
        {
          version := Some(k.version);
        }
      }
      if version.Some? {
        assert IsEffective(Snapshot(), entity, on, version.value);
        EffectiveIsUnique(Snapshot(), entity, on, version.value);
      }
    }

    method StatusOn(key: Key, on: Day) returns (standing: Standing)
      requires key in baselines
      ensures standing == StandingOf(Snapshot(), key, on)
    {
      if key in withdrawals && DayOf(withdrawals[key].at) <= on {
        return WITHDRAWN;
      }
      if baselines[key].effectiveFrom > on {
        return NOT_YET_EFFECTIVE;
      }
      var inForce := Effective(key.entity, on);
      standing := if inForce == Some(key.version) then EFFECTIVE else SUPERSEDED;
    }

    /** The engine's reader: the top version, and none at all if that one was ever withdrawn. */
    method CurrentBaseline(entity: string, today: Day) returns (version: Option<nat>)
      ensures version == CurrentVersion(Snapshot(), entity, today)
    {
      var top: Option<nat> := None;
      var left := baselines.Keys;
      while left != {}
        invariant left <= baselines.Keys
        invariant top.Some? ==> Started(Snapshot(), Key(entity, top.value), today)
        invariant forall k :: k in baselines && k !in left && k.entity == entity && Started(Snapshot(), k, today) ==>
                    top.Some? && NotBefore(Snapshot(), Key(entity, top.value), k)
        decreases left
      {
        var k :| k in left;
        left := left - {k};
        if k.entity == entity && Started(Snapshot(), k, today)
            && (top.None? || !NotBefore(Snapshot(), Key(entity, top.value), k)) {
          top := Some(k.version);
        }
      }
      if top.Some? {
        assert IsTop(Snapshot(), entity, today, top.value);
        TopIsUnique(Snapshot(), entity, today, top.value);
      }
      version := if top.Some? && Key(entity, top.value) in withdrawals then None else top;
    }
  }

  // ---------------------------------------------------------------------------------------------------------------
  // The version in force on a day
  // ---------------------------------------------------------------------------------------------------------------

  predicate Started(s: Store, k: Key, on: Day) {
    k in s.baselines && s.baselines[k].effectiveFrom <= on
  }

  predicate WithdrawnBy(s: Store, k: Key, on: Day) {
    k in s.withdrawals && DayOf(s.withdrawals[k].at) <= on
  }

  predicate InForce(s: Store, k: Key, on: Day) {
    Started(s, k, on) && !WithdrawnBy(s, k, on)
  }

  /** The query's order: later start first, then higher version. */
  predicate NotBefore(s: Store, a: Key, b: Key) {
    && a in s.baselines && b in s.baselines
    && (s.baselines[a].effectiveFrom > s.baselines[b].effectiveFrom
        || (s.baselines[a].effectiveFrom == s.baselines[b].effectiveFrom && a.version >= b.version))
  }

  ghost predicate IsEffective(s: Store, entity: string, on: Day, version: nat) {
    && InForce(s, Key(entity, version), on)
    && forall k: Key {:trigger InForce(s, k, on)} :: k.entity == entity && InForce(s, k, on) ==>
        NotBefore(s, Key(entity, version), k)
  }

  ghost function EffectiveVersion(s: Store, entity: string, on: Day): Option<nat> {
    if v :| IsEffective(s, entity, on, v) then Some(v) else None
  }

  lemma EffectiveIsUnique(s: Store, entity: string, on: Day, version: nat)
    requires IsEffective(s, entity, on, version)
    ensures EffectiveVersion(s, entity, on) == Some(version)
  {
    forall v | IsEffective(s, entity, on, v) ensures v == version {
      assert NotBefore(s, Key(entity, v), Key(entity, version)) && NotBefore(s, Key(entity, version), Key(entity, v));
    }
  }

  datatype Standing = WITHDRAWN | NOT_YET_EFFECTIVE | EFFECTIVE | SUPERSEDED

  ghost function StandingOf(s: Store, k: Key, on: Day): Standing
    requires k in s.baselines
  {
    if WithdrawnBy(s, k, on) then WITHDRAWN
    else if !Started(s, k, on) then NOT_YET_EFFECTIVE
    else if EffectiveVersion(s, k.entity, on) == Some(k.version) then EFFECTIVE
    else SUPERSEDED
  }

  /** Some version in force is the best of them. */
  lemma {:induction false} BestExists(s: Store, entity: string, on: Day, candidates: set<nat>) returns (best: nat)
    requires candidates != {} && forall v :: v in candidates ==> InForce(s, Key(entity, v), on)
    ensures best in candidates && forall v :: v in candidates ==> NotBefore(s, Key(entity, best), Key(entity, v))
    decreases |candidates|
  {
    best :| best in candidates;
    var rest := candidates - {best};
    if rest != {} {
      var other := BestExists(s, entity, on, rest);
      if !NotBefore(s, Key(entity, best), Key(entity, other)) { best := other; }
    }
  }

  /** A baseline is found exactly when some version has started and was not withdrawn by then. */
  lemma EffectiveExactlyWhenInForce(s: Store, entity: string, on: Day)
    ensures EffectiveVersion(s, entity, on).Some? <==> exists k: Key :: k.entity == entity && InForce(s, k, on)
    ensures EffectiveVersion(s, entity, on).Some? ==> IsEffective(s, entity, on, EffectiveVersion(s, entity, on).value)
  {
    if k: Key :| k.entity == entity && InForce(s, k, on) {
      var candidates := set c | c in s.baselines && c.entity == entity && InForce(s, c, on) :: c.version;
      assert k.version in candidates;
      forall v | v in candidates ensures InForce(s, Key(entity, v), on) {
        var c :| c in s.baselines && c.entity == entity && InForce(s, c, on) && c.version == v;
        assert c == Key(entity, v);
      }
      var best := BestExists(s, entity, on, candidates);
      assert IsEffective(s, entity, on, best);
      EffectiveIsUnique(s, entity, on, best);
    }
  }

  /** On any day a version reads EFFECTIVE if and only if it is the one `effective` returns. */
  lemma EffectiveStandingIsExact(s: Store, k: Key, on: Day)
    requires k in s.baselines
    ensures StandingOf(s, k, on) == EFFECTIVE <==> EffectiveVersion(s, k.entity, on) == Some(k.version)
    ensures StandingOf(s, k, on) == SUPERSEDED ==>
              exists other ::
                  other in s.baselines && other.entity == k.entity && other != k
                  && StandingOf(s, other, on) == EFFECTIVE
  {
    EffectiveExactlyWhenInForce(s, k.entity, on);
    if StandingOf(s, k, on) == SUPERSEDED {
      assert InForce(s, k, on);
      var other := Key(k.entity, EffectiveVersion(s, k.entity, on).value);
      assert StandingOf(s, other, on) == EFFECTIVE;
    }
  }

  // ---------------------------------------------------------------------------------------------------------------
  // What a later fact cannot change
  // ---------------------------------------------------------------------------------------------------------------

  /** The same versions are in force on the day, in the same order. */
  ghost predicate SameOn(s: Store, s': Store, entity: string, on: Day) {
    && (forall k: Key {:trigger InForce(s, k, on)} {:trigger InForce(s', k, on)} :: k.entity == entity ==>
        (InForce(s, k, on) <==> InForce(s', k, on)))
    && (forall k: Key :: k.entity == entity && InForce(s, k, on) ==>
        k in s'.baselines && s'.baselines[k] == s.baselines[k])
  }

  lemma SameAnswer(s: Store, s': Store, entity: string, on: Day)
    requires SameOn(s, s', entity, on)
    ensures EffectiveVersion(s, entity, on) == EffectiveVersion(s', entity, on)
  {
    EffectiveExactlyWhenInForce(s, entity, on);
    EffectiveExactlyWhenInForce(s', entity, on);
    if EffectiveVersion(s, entity, on).Some? {
      var v := EffectiveVersion(s, entity, on).value;
      assert IsEffective(s', entity, on, v);
      EffectiveIsUnique(s', entity, on, v);
    }
  }

  /** A version that starts after the day changes no answer for it. */
  lemma LaterStartChangesNothing(s: Store, entity: string, version: nat, b: Baseline, on: Day, other: string, k: Key)
    requires Key(entity, version) !in s.baselines && b.effectiveFrom > on && k in s.baselines
    ensures var s' := WithBaseline(s, entity, version, b);
            && EffectiveVersion(s', other, on) == EffectiveVersion(s, other, on)
            && k in s'.baselines && StandingOf(s', k, on) == StandingOf(s, k, on)
  {
    var s' := WithBaseline(s, entity, version, b);
    assert SameOn(s, s', other, on) && SameOn(s, s', k.entity, on);
    SameAnswer(s, s', other, on);
    SameAnswer(s, s', k.entity, on);
  }

  /** A withdrawal dated after the day changes no answer for it. */
  lemma LaterWithdrawalChangesNothing(s: Store, entity: string, version: nat, w: Withdrawal, on: Day, other: string,
      k: Key)
    requires Key(entity, version) !in s.withdrawals && DayOf(w.at) > on && k in s.baselines
    ensures var s' := WithWithdrawal(s, entity, version, w);
            && EffectiveVersion(s', other, on) == EffectiveVersion(s, other, on)
            && StandingOf(s', k, on) == StandingOf(s, k, on)
  {
    var s' := WithWithdrawal(s, entity, version, w);
    assert SameOn(s, s', other, on) && SameOn(s, s', k.entity, on);
    SameAnswer(s, s', other, on);
    SameAnswer(s, s', k.entity, on);
  }

  /** A version that starts by the day takes over exactly when it is the best of those in force, itself among them. */
  lemma NewVersionTakesOver(s: Store, entity: string, version: nat, b: Baseline, on: Day)
    requires version >= 1 && IsLatest(s, entity, version - 1) && b.effectiveFrom <= on
    requires forall k :: k in s.withdrawals ==> k in s.baselines
    ensures var s' := WithBaseline(s, entity, version, b);
            var before := EffectiveVersion(s, entity, on);
            EffectiveVersion(s', entity, on)
            == if before.Some? && before.value in VersionsOf(s, entity)
                  && s.baselines[Key(entity, before.value)].effectiveFrom > b.effectiveFrom
               then before else Some(version)
  {
    var s', new_ := WithBaseline(s, entity, version, b), Key(entity, version);
    assert version !in VersionsOf(s, entity);
    assert new_ in s.baselines ==> version in VersionsOf(s, entity);
    EffectiveExactlyWhenInForce(s, entity, on);
    assert InForce(s', new_, on);
    forall k: Key | k.entity == entity && k != new_ ensures InForce(s', k, on) <==> InForce(s, k, on) {}
    var before := EffectiveVersion(s, entity, on);
    if before.Some? {
      var old_ := Key(entity, before.value);
      assert old_ in s.baselines && before.value in VersionsOf(s, entity);
      if s.baselines[old_].effectiveFrom > b.effectiveFrom {
        assert IsEffective(s', entity, on, before.value);
        EffectiveIsUnique(s', entity, on, before.value);
      } else {
        NewIsBest(s, s', entity, version, b, on, old_);
      }
    } else {
      assert IsEffective(s', entity, on, version);
      EffectiveIsUnique(s', entity, on, version);
    }
  }

  lemma NewIsBest(s: Store, s': Store, entity: string, version: nat, b: Baseline, on: Day, old_: Key)
    requires s' == WithBaseline(s, entity, version, b) && version >= 1 && IsLatest(s, entity, version - 1)
    requires IsEffective(s, entity, on, old_.version) && old_.entity == entity
    requires InForce(s', Key(entity, version), on) && s.baselines[old_].effectiveFrom <= b.effectiveFrom
    ensures EffectiveVersion(s', entity, on) == Some(version)
  {
    var new_ := Key(entity, version);
    forall k: Key | k.entity == entity && InForce(s', k, on) ensures NotBefore(s', new_, k) {
      if k != new_ {
        assert InForce(s, k, on) && NotBefore(s, old_, k);
        assert k.version in VersionsOf(s, entity);
      }
    }
    EffectiveIsUnique(s', entity, on, version);
  }

  // ---------------------------------------------------------------------------------------------------------------
  // Over any history
  // ---------------------------------------------------------------------------------------------------------------

  datatype Action = Recording(entity: string, baseline: Baseline) | Withdrawing(key: Key, withdrawal: Withdrawal)

  ghost function Latest(s: Store, entity: string): nat {
    if v: nat :| IsLatest(s, entity, v) then v else 0
  }

  ghost function Step(s: Store, a: Action): Store {
    match a
    case Recording(entity, b) => WithBaseline(s, entity, Latest(s, entity) + 1, b)
    case Withdrawing(key, w) =>
      if key in s.baselines && key !in s.withdrawals then WithWithdrawal(s, key.entity, key.version, w) else s
  }

  ghost function Run(s: Store, actions: seq<Action>): Store
    decreases |actions|
  {
    if actions == [] then s else Run(Step(s, actions[0]), actions[1..])
  }

  function UpTo(n: nat): (versions: set<nat>)
    ensures forall v :: v in versions <==> 1 <= v <= n
  {
    if n == 0 then {} else UpTo(n - 1) + {n}
  }

  /** The entity's versions are 1, 2, ..., n. */
  ghost predicate DenseTo(s: Store, entity: string, n: nat) {
    VersionsOf(s, entity) == UpTo(n)
  }

  ghost predicate DenseFor(s: Store, entity: string) {
    exists n: nat :: DenseTo(s, entity, n)
  }

  /** Every entity's versions are dense, and only recorded versions are withdrawn. */
  ghost predicate Dense(s: Store) {
    && (forall entity :: DenseFor(s, entity))
    && (forall k :: k in s.withdrawals ==> k in s.baselines)
  }

  lemma LatestOfDense(s: Store, entity: string, n: nat)
    requires DenseTo(s, entity, n)
    ensures Latest(s, entity) == n && IsLatest(s, entity, n)
    ensures Key(entity, n + 1) !in s.baselines
  {
    assert Key(entity, n + 1) in s.baselines ==> n + 1 in VersionsOf(s, entity);
    assert n > 0 ==> n in UpTo(n);
    assert IsLatest(s, entity, n);
    forall m: nat | IsLatest(s, entity, m) ensures m == n {
      if n > 0 { assert n in VersionsOf(s, entity); }
    }
  }

  lemma StepKeepsDense(s: Store, a: Action)
    requires Dense(s)
    ensures Dense(Step(s, a))
  {
    var s' := Step(s, a);
    forall entity ensures DenseFor(s', entity) {
      assert DenseFor(s, entity);
      var n: nat :| DenseTo(s, entity, n);
      if a.Recording? && a.entity == entity {
        LatestOfDense(s, entity, n);
        RecordExtends(s, entity, n, a.baseline);
      } else {
        assert VersionsOf(s', entity) == VersionsOf(s, entity);
        assert DenseTo(s', entity, n);
      }
    }
  }

  lemma RecordExtends(s: Store, entity: string, n: nat, b: Baseline)
    requires DenseTo(s, entity, n)
    ensures DenseTo(WithBaseline(s, entity, n + 1, b), entity, n + 1)
  {
    var s' := WithBaseline(s, entity, n + 1, b);
    assert Key(entity, n + 1) in s'.baselines;
    forall v: nat ensures v in VersionsOf(s', entity) <==> v in VersionsOf(s, entity) || v == n + 1 {
      if v in VersionsOf(s, entity) {
        var k :| k in s.baselines && k.entity == entity && k.version == v;
        assert k in s'.baselines;
      }
    }
  }

  /** Whatever is recorded and withdrawn in whatever order: versions stay dense, and no recorded version or withdrawal
      is ever changed. */
  lemma {:induction false} HistoryTheorem(s: Store, actions: seq<Action>)
    requires Dense(s)
    ensures var s' := Run(s, actions);
            && Dense(s')
            && (forall k :: k in s.baselines ==> k in s'.baselines && s'.baselines[k] == s.baselines[k])
            && (forall k :: k in s.withdrawals ==> k in s'.withdrawals && s'.withdrawals[k] == s.withdrawals[k])
    decreases |actions|
  {
    if actions != [] {
      StepKeepsDense(s, actions[0]);
      StepAppends(s, actions[0]);
      HistoryTheorem(Step(s, actions[0]), actions[1..]);
    }
  }

  lemma StepAppends(s: Store, a: Action)
    requires Dense(s)
    ensures var s' := Step(s, a);
            && (forall k :: k in s.baselines ==> k in s'.baselines && s'.baselines[k] == s.baselines[k])
            && (forall k :: k in s.withdrawals ==> k in s'.withdrawals && s'.withdrawals[k] == s.withdrawals[k])
  {
    if a.Recording? {
      assert DenseFor(s, a.entity);
      var n: nat :| DenseTo(s, a.entity, n);
      LatestOfDense(s, a.entity, n);
    }
  }

  // ---------------------------------------------------------------------------------------------------------------
  // The engine's reader
  // ---------------------------------------------------------------------------------------------------------------

  ghost predicate IsTop(s: Store, entity: string, on: Day, version: nat) {
    && Started(s, Key(entity, version), on)
    && forall k: Key {:trigger Started(s, k, on)} :: k.entity == entity && Started(s, k, on) ==>
        NotBefore(s, Key(entity, version), k)
  }

  ghost function TopVersion(s: Store, entity: string, on: Day): Option<nat> {
    if v :| IsTop(s, entity, on, v) then Some(v) else None
  }

  lemma TopIsUnique(s: Store, entity: string, on: Day, version: nat)
    requires IsTop(s, entity, on, version)
    ensures TopVersion(s, entity, on) == Some(version)
  {
    forall v | IsTop(s, entity, on, v) ensures v == version {
      assert NotBefore(s, Key(entity, v), Key(entity, version)) && NotBefore(s, Key(entity, version), Key(entity, v));
    }
  }

  ghost function CurrentVersion(s: Store, entity: string, today: Day): Option<nat> {
    var top := TopVersion(s, entity, today);
    if top.Some? && Key(entity, top.value) in s.withdrawals then None else top
  }

  /** Some version has started exactly when there is a top one: the top of a store without its withdrawals. */
  lemma TopExists(s: Store, k: Key, on: Day)
    requires Started(s, k, on)
    ensures TopVersion(s, k.entity, on).Some? && IsTop(s, k.entity, on, TopVersion(s, k.entity, on).value)
  {
    var plain := Store(s.baselines, map[]);
    assert InForce(plain, k, on);
    EffectiveExactlyWhenInForce(plain, k.entity, on);
    var v := EffectiveVersion(plain, k.entity, on).value;
    forall c: Key | c.entity == k.entity && Started(s, c, on) ensures NotBefore(s, Key(k.entity, v), c) {
      assert InForce(plain, c, on);
    }
    assert IsTop(s, k.entity, on, v);
    TopIsUnique(s, k.entity, on, v);
  }

  /** Where the engine's reader finds a version it is the one `effective` returns; and it finds it exactly when that
      version is the top one and was never withdrawn. */
  lemma EngineAgrees(s: Store, entity: string, today: Day, version: nat)
    ensures CurrentVersion(s, entity, today) == Some(version) <==>
              EffectiveVersion(s, entity, today) == Some(version) && TopVersion(s, entity, today) == Some(version)
              && Key(entity, version) !in s.withdrawals
  {
    var top := TopVersion(s, entity, today);
    if top == Some(version) && Key(entity, version) !in s.withdrawals {
      forall k: Key | k.entity == entity && InForce(s, k, today) ensures NotBefore(s, Key(entity, version), k) {
        assert Started(s, k, today);
      }
      assert IsEffective(s, entity, today, version);
      EffectiveIsUnique(s, entity, today, version);
    }
  }

  /** The engine's reader is without a baseline while `effective` has one exactly when the top version was ever
      withdrawn and some version is in force: an earlier one, or the top one itself if its withdrawal is dated later. */
  lemma EngineIsStricterExactly(s: Store, entity: string, today: Day)
    ensures CurrentVersion(s, entity, today) != EffectiveVersion(s, entity, today) <==>
              && TopVersion(s, entity, today).Some? && Key(entity, TopVersion(s, entity, today).value) in s.withdrawals
              && exists k: Key :: k.entity == entity && InForce(s, k, today)
    ensures CurrentVersion(s, entity, today) != EffectiveVersion(s, entity, today) ==>
        CurrentVersion(s, entity, today).None?
  {
    EffectiveExactlyWhenInForce(s, entity, today);
    var top := TopVersion(s, entity, today);
    if top.Some? {
      EngineAgrees(s, entity, today, top.value);
    } else if k: Key :| k.entity == entity && InForce(s, k, today) {
      TopExists(s, k, today);
    }
  }
}
