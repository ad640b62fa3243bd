/**
 The deterministic provisioning plan (modules/provisioning/planner.py) and the names its steps leave behind: step keys,
 engine markers and mapping keys (idempiere_adapter.py). Resuming a plan and creating each record once rest on their
 being distinct.
 */
module ProvisioningPlan {
  import opened Prelude
  import opened Text
  import opened Ordering
  import opened RequestState

  datatype StepKind = CREATE_CLIENT | CONFIGURE_ACCOUNTING | CONFIGURE_LOCALISATION | CREATE_WAREHOUSE | PERSIST_MAPPING

  datatype Detail =
    | ClientDetail(legalName: string)
    | AccountingDetail(accounting: Accounting)
    | LocalisationDetail(marketId: string, countryCode: string, profile: string)
    | WarehouseDetail(marketId: string, code: string, timezone: Option<string>)
    | MappingDetail(tenant: string, legalEntity: string, instance: string, planDigest: string)

  datatype Step = Step(key: string, detail: Detail)

  function KindOf(detail: Detail): StepKind {
    match detail
    case ClientDetail(_) => CREATE_CLIENT
    case AccountingDetail(_) => CONFIGURE_ACCOUNTING
    case LocalisationDetail(_, _, _) => CONFIGURE_LOCALISATION
    case WarehouseDetail(_, _, _) => CREATE_WAREHOUSE
    case MappingDetail(_, _, _, _) => PERSIST_MAPPING
  }

  /** What a step's key says after the operation and the state it was planned for. */
  function Tail(detail: Detail): string {
    match detail
    case ClientDetail(_) => "client"
    case AccountingDetail(_) => "accounting"
    case LocalisationDetail(marketId, _, _) => "market:" + marketId
    case WarehouseDetail(marketId, code, _) => "warehouse:" + (marketId + ":" + code)
    case MappingDetail(_, _, _, _) => "mapping"
  }

  datatype Plan = Plan(provisioningId: string, digest: string, steps: seq<Step>)

  function First12(s: string): string {
    if |s| <= 12 then s else s[..12]
  }

  function Prefix(r: Request, digest: string): string {
    r.provisioningId + ":" + First12(digest)
  }

  function StepFor(prefix: string, detail: Detail): Step {
    Step(prefix + ":" + Tail(detail), detail)
  }

  /** `dict(...).get(...)`: the last entry for a code counts, and an empty zone is none. */
  function TimezoneOf(zones: seq<(string, string)>, code: string): Option<string> {
    if zones == [] then None
    else
      var last := zones[|zones| - 1];
      if last.0 == code then if last.1 == "" then None else Some(last.1)
      else TimezoneOf(zones[..|zones| - 1], code)
  }

  function IdOf(m: Market): string {
    m.marketId
  }

  function MarketDetail(m: Market): Detail {
    LocalisationDetail(m.marketId, m.countryCode, m.profile)
  }

  function WarehouseOf(m: Market, code: string): Detail {
    WarehouseDetail(m.marketId, code, TimezoneOf(m.timezones, code))
  }

  function WarehouseSteps(prefix: string, m: Market, codes: seq<string>): seq<Step> {
    if codes == [] then []
    else WarehouseSteps(prefix, m, codes[..|codes| - 1]) + [StepFor(prefix, WarehouseOf(m, codes[|codes| - 1]))]
  }

  function OwnSteps(prefix: string, m: Market): seq<Step> {
    [StepFor(prefix, MarketDetail(m))] + WarehouseSteps(prefix, m, Sorted(m.warehouses, Itself))
  }

  function MarketSteps(prefix: string, markets: seq<Market>): seq<Step> {
    if markets == [] then []
    else MarketSteps(prefix, markets[..|markets| - 1]) + OwnSteps(prefix, markets[|markets| - 1])
  }

  lemma MarketStepsAppend(prefix: string, markets: seq<Market>, m: Market)
    ensures MarketSteps(prefix, markets + [m]) == MarketSteps(prefix, markets) + OwnSteps(prefix, m)
  {
    assert (markets + [m])[..|markets|] == markets;
  }

  lemma OneMarketMore(prefix: string, markets: seq<Market>, i: nat)
    requires i < |markets|
    ensures MarketSteps(prefix, markets[..i + 1]) == MarketSteps(prefix, markets[..i]) + OwnSteps(prefix, markets[i])
  {
    MarketStepsAppend(prefix, markets[..i], markets[i]);
    assert markets[..i + 1] == markets[..i] + [markets[i]];
  }

  function MappingOf(r: Request): Detail {
    MappingDetail(r.tenant, r.legalEntity, r.instance, r.planDigest)
  }

  function StepsOf(r: Request, prefix: string): seq<Step> {
    [StepFor(prefix, ClientDetail(r.legalName)), StepFor(prefix, AccountingDetail(r.accounting))]
    + MarketSteps(prefix, Sorted(r.markets, IdOf))
    + [StepFor(prefix, MappingOf(r))]
  }

  predicate UniqueMarkets(r: Request) {
    forall i, j :: 0 <= i < j < |r.markets| ==> r.markets[i].marketId != r.markets[j].marketId
  }

  function PlanOf(r: Request, digest: Digest, order: Iteration): Plan {
    var d := digest(DesiredState(r, order));
    Plan(r.provisioningId, d, StepsOf(r, Prefix(r, d)))
  }

  /** The one check of `validate_request` that bears on the plan's keys. */
  method CheckMarkets(markets: seq<Market>) returns (unique: bool)
    ensures unique <==> forall i, j :: 0 <= i < j < |markets| ==> markets[i].marketId != markets[j].marketId
  {
    var seen: set<string> := {};
    for i := 0 to |markets|
      invariant forall j :: 0 <= j < i ==> markets[j].marketId in seen
      invariant forall x :: x in seen ==> exists j :: 0 <= j < i && markets[j].marketId == x
      invariant forall j, k :: 0 <= j < k < i ==> markets[j].marketId != markets[k].marketId
    {
      if markets[i].marketId in seen {
        return false;
      }
      seen := seen + {markets[i].marketId};
    }
    return true;
  }

  /** One market's step, then its warehouses' in sorted order. */
  method BuildMarket(prefix: string, m: Market) returns (steps: seq<Step>)
    ensures steps == OwnSteps(prefix, m)
  {
    var codes := Sorted(m.warehouses, Itself);
    steps := [StepFor(prefix, MarketDetail(m))];
    for k := 0 to |codes|
      invariant steps == [StepFor(prefix, MarketDetail(m))] + WarehouseSteps(prefix, m, codes[..k])
    {
      assert codes[..k + 1][..k] == codes[..k];
      steps := steps + [StepFor(prefix, WarehouseOf(m, codes[k]))];
    }
    assert codes[..|codes|] == codes;
  }

  method BuildMarkets(prefix: string, markets: seq<Market>) returns (steps: seq<Step>)
    ensures steps == MarketSteps(prefix, markets)
  {
    steps := [];
    for i := 0 to |markets|
      invariant steps == MarketSteps(prefix, markets[..i])
    {
      var own := BuildMarket(prefix, markets[i]);
      OneMarketMore(prefix, markets, i);
      steps := steps + own;
    }
    assert markets[..|markets|] == markets;
  }

  /** `build_plan`: validated, then step by step, markets and codes in sorted order. */
  method BuildPlan(r: Request, digest: Digest, order: Iteration) returns (plan: Option<Plan>)
    ensures plan == if UniqueMarkets(r) then Some(PlanOf(r, digest, order)) else None
  {
    var unique := CheckMarkets(r.markets);
    if !unique {
      return None;
    }
    var serialised := BuildDesiredState(r, order);
    var d := digest(serialised);
    var prefix := Prefix(r, d);
    var steps := [StepFor(prefix, ClientDetail(r.legalName)), StepFor(prefix, AccountingDetail(r.accounting))];
    var middle := BuildMarkets(prefix, Sorted(r.markets, IdOf));
    steps := steps + middle + [StepFor(prefix, MappingOf(r))];
    plan := Some(Plan(r.provisioningId, d, steps));
  }

  // ---------------------------------------------------------------------------------------------------------------
  // Counting keys
  // ---------------------------------------------------------------------------------------------------------------

  function Prefixed(prefix: string, xs: seq<string>): seq<string> {
    seq(|xs|, i requires 0 <= i < |xs| => prefix + xs[i])
  }

  /** What "warehouse:" is put before, in the request's own order. */
  function NamesIn(m: Market): seq<string> {
    Prefixed(m.marketId + ":", m.warehouses)
  }

  function Names(markets: seq<Market>): seq<string> {
    if markets == [] then [] else Names(markets[..|markets| - 1]) + NamesIn(markets[|markets| - 1])
  }

  function Ids(markets: seq<Market>): seq<string> {
    seq(|markets|, i requires 0 <= i < |markets| => markets[i].marketId)
  }

  function Tails(steps: seq<Step>): seq<string> {
    seq(|steps|, i requires 0 <= i < |steps| => Tail(steps[i].detail))
  }

  function Keys(steps: seq<Step>): seq<string> {
    seq(|steps|, i requires 0 <= i < |steps| => steps[i].key)
  }

  lemma {:induction false} PrefixedCount(prefix: string, xs: seq<string>, x: string)
    ensures multiset(Prefixed(prefix, xs))[prefix + x] == multiset(xs)[x]
  {
    if xs != [] {
      var n := |xs| - 1;
      PrefixedCount(prefix, xs[..n], x);
      assert xs == xs[..n] + [xs[n]];
      assert Prefixed(prefix, xs) == Prefixed(prefix, xs[..n]) + [prefix + xs[n]];
      if prefix + xs[n] == prefix + x { SuffixEqual(prefix, xs[n], x); }
    }
  }

  lemma PrefixedOnly(prefix: string, xs: seq<string>, y: string)
    requires y in Prefixed(prefix, xs)
    ensures exists x :: y == prefix + x
  {
    var i :| 0 <= i < |xs| && Prefixed(prefix, xs)[i] == y;
    assert y == prefix + xs[i];
  }

  /** Prefixing keeps and reflects equality of multisets, and so distinctness. */
  lemma PrefixedSame(prefix: string, xs: seq<string>, ys: seq<string>)
    requires multiset(xs) == multiset(ys)
    ensures multiset(Prefixed(prefix, xs)) == multiset(Prefixed(prefix, ys))
  {
    forall y ensures multiset(Prefixed(prefix, xs))[y] == multiset(Prefixed(prefix, ys))[y] {
      if y in Prefixed(prefix, xs) {
        PrefixedOnly(prefix, xs, y);
      } else if y in Prefixed(prefix, ys) {
        PrefixedOnly(prefix, ys, y);
      }
      if x :| y == prefix + x {
        PrefixedCount(prefix, xs, x);
        PrefixedCount(prefix, ys, x);
      }
    }
  }

  lemma PrefixedDistinct(prefix: string, xs: seq<string>)
    ensures Distinct(Prefixed(prefix, xs)) <==> Distinct(xs)
  {
    forall i, j | 0 <= i < j < |xs| ensures Prefixed(prefix, xs)[i] == Prefixed(prefix, xs)[j] <==> xs[i] == xs[j] {
      if prefix + xs[i] == prefix + xs[j] { SuffixEqual(prefix, xs[i], xs[j]); }
    }
  }

  lemma PrefixedAppends(prefix: string, xs: seq<string>, ys: seq<string>)
    ensures Prefixed(prefix, xs + ys) == Prefixed(prefix, xs) + Prefixed(prefix, ys)
  {
  }

  lemma TailsAppend(a: seq<Step>, b: seq<Step>)
    ensures Tails(a + b) == Tails(a) + Tails(b)
  {
  }

  lemma IdsAppend(markets: seq<Market>, m: Market)
    ensures Ids(markets + [m]) == Ids(markets) + [m.marketId]
  {
  }

  lemma NamesAppend(markets: seq<Market>, m: Market)
    ensures Names(markets + [m]) == Names(markets) + NamesIn(m)
  {
    assert (markets + [m])[..|markets|] == markets;
  }

  const MARKET := "market:"
  const WAREHOUSE := "warehouse:"

  lemma {:induction false} WarehouseTails(prefix: string, m: Market, codes: seq<string>)
    ensures Tails(WarehouseSteps(prefix, m, codes)) == Prefixed(WAREHOUSE, Prefixed(m.marketId + ":", codes))
  {
    if codes != [] {
      var n := |codes| - 1;
      var last := StepFor(prefix, WarehouseOf(m, codes[n]));
      WarehouseTails(prefix, m, codes[..n]);
      TailsAppend(WarehouseSteps(prefix, m, codes[..n]), [last]);
      assert Tail(last.detail) == WAREHOUSE + (m.marketId + ":" + codes[n]);
      assert codes == codes[..n] + [codes[n]];
      PrefixedAppends(m.marketId + ":", codes[..n], [codes[n]]);
      PrefixedAppends(WAREHOUSE, Prefixed(m.marketId + ":", codes[..n]), [m.marketId + ":" + codes[n]]);
    }
  }

  /** One market's own step and its warehouses', whatever order the codes come in. */
  lemma OwnTails(prefix: string, m: Market)
    ensures multiset(Tails(OwnSteps(prefix, m))) == multiset{MARKET + m.marketId} + multiset(Prefixed(WAREHOUSE,
        NamesIn(m)))
  {
    var codes := Sorted(m.warehouses, Itself);
    var own, mine := StepFor(prefix, MarketDetail(m)), WarehouseSteps(prefix, m, codes);
    TailsAppend([own], mine);
    assert Tails([own]) == [MARKET + m.marketId];
    WarehouseTails(prefix, m, codes);
    SortedPermutes(m.warehouses, Itself);
    PrefixedSame(m.marketId + ":", codes, m.warehouses);
    PrefixedSame(WAREHOUSE, Prefixed(m.marketId + ":", codes), NamesIn(m));
  }

  lemma TailsGrow(markets: seq<Market>, m: Market, earlier: seq<Step>, own: seq<Step>)
    requires multiset(Tails(earlier)) == multiset(Prefixed(MARKET, Ids(markets))) + multiset(Prefixed(WAREHOUSE,
        Names(markets)))
    requires multiset(Tails(own)) == multiset{MARKET + m.marketId} + multiset(Prefixed(WAREHOUSE, NamesIn(m)))
    ensures multiset(Tails(earlier + own))
         == multiset(Prefixed(MARKET, Ids(markets + [m]))) + multiset(Prefixed(WAREHOUSE, Names(markets + [m])))
  {
    TailsAppend(earlier, own);
    IdsAppend(markets, m);
    NamesAppend(markets, m);
    PrefixedAppends(MARKET, Ids(markets), [m.marketId]);
    assert Prefixed(MARKET, [m.marketId]) == [MARKET + m.marketId];
    PrefixedAppends(WAREHOUSE, Names(markets), NamesIn(m));
  }

  /** The plan's market part: one key per market, one per warehouse. */
  lemma {:induction false} MarketTails(prefix: string, markets: seq<Market>)
    ensures multiset(Tails(MarketSteps(prefix, markets)))
         == multiset(Prefixed(MARKET, Ids(markets))) + multiset(Prefixed(WAREHOUSE, Names(markets)))
  {
    if markets != [] {
      var n := |markets| - 1;
      var rest, m := markets[..n], markets[n];
      MarketTails(prefix, rest);
      OwnTails(prefix, m);
      TailsGrow(rest, m, MarketSteps(prefix, rest), OwnSteps(prefix, m));
      MarketStepsAppend(prefix, rest, m);
      assert markets == rest + [m];
    }
  }

  lemma {:induction false} NamesOfInserted(sorted: seq<Market>, m: Market)
    ensures multiset(Names(Insert(sorted, m, IdOf))) == multiset(Names(sorted)) + multiset(NamesIn(m))
  {
    if sorted == [] || Leq(IdOf(sorted[|sorted| - 1]), IdOf(m)) {
      NamesAppend(sorted, m);
    } else {
      var n := |sorted| - 1;
      NamesOfInserted(sorted[..n], m);
      NamesAppend(Insert(sorted[..n], m, IdOf), sorted[n]);
    }
  }

  lemma {:induction false} IdsOfInserted(sorted: seq<Market>, m: Market)
    ensures multiset(Ids(Insert(sorted, m, IdOf))) == multiset(Ids(sorted)) + multiset{m.marketId}
  {
    if sorted == [] || Leq(IdOf(sorted[|sorted| - 1]), IdOf(m)) {
      IdsAppend(sorted, m);
    } else {
      var n := |sorted| - 1;
      IdsOfInserted(sorted[..n], m);
      IdsAppend(Insert(sorted[..n], m, IdOf), sorted[n]);
      assert sorted == sorted[..n] + [sorted[n]];
      IdsAppend(sorted[..n], sorted[n]);
    }
  }

  lemma {:induction false} NamesOfSorted(markets: seq<Market>)
    ensures multiset(Names(Sorted(markets, IdOf))) == multiset(Names(markets))
  {
    if markets != [] {
      var n := |markets| - 1;
      NamesOfSorted(markets[..n]);
      NamesOfInserted(Sorted(markets[..n], IdOf), markets[n]);
    }
  }

  lemma {:induction false} IdsOfSorted(markets: seq<Market>)
    ensures multiset(Ids(Sorted(markets, IdOf))) == multiset(Ids(markets))
  {
    if markets != [] {
      var n := |markets| - 1;
      IdsOfSorted(markets[..n]);
      IdsOfInserted(Sorted(markets[..n], IdOf), markets[n]);
      assert markets == markets[..n] + [markets[n]];
      IdsAppend(markets[..n], markets[n]);
    }
  }

  // ---------------------------------------------------------------------------------------------------------------
  // Distinct keys
  // ---------------------------------------------------------------------------------------------------------------

  const FIXED: seq<string> := ["client", "accounting", "mapping"]

  /** A plan's tails are the three fixed ones, one per market and one per warehouse. */
  lemma PlanTails(r: Request, prefix: string)
    ensures multiset(Tails(StepsOf(r, prefix)))
         == multiset(FIXED) + multiset(Prefixed(MARKET, Ids(r.markets))) + multiset(Prefixed(WAREHOUSE,
             Names(r.markets)))
  {
    var markets := Sorted(r.markets, IdOf);
    var first := [StepFor(prefix, ClientDetail(r.legalName)), StepFor(prefix, AccountingDetail(r.accounting))];
    var last := [StepFor(prefix, MappingOf(r))];
    MarketTails(prefix, markets);
    NamesOfSorted(r.markets);
    IdsOfSorted(r.markets);
    PrefixedSame(MARKET, Ids(markets), Ids(r.markets));
    PrefixedSame(WAREHOUSE, Names(markets), Names(r.markets));
    TailsAppend(first, MarketSteps(prefix, markets));
    TailsAppend(first + MarketSteps(prefix, markets), last);
    FixedTails(first, last);
  }

  lemma FixedTails(first: seq<Step>, last: seq<Step>)
    requires |first| == 2 && first[0].detail.ClientDetail? && first[1].detail.AccountingDetail?
    requires |last| == 1 && last[0].detail.MappingDetail?
    ensures multiset(Tails(first)) + multiset(Tails(last)) == multiset(FIXED)
  {
    assert Tails(first) == ["client", "accounting"] && Tails(last) == ["mapping"];
    assert FIXED == Tails(first) + Tails(last);
  }

  /** Three kinds of tail that no text belongs to two of. */
  lemma KindsApart(x: string, y: string)
    ensures MARKET + x != WAREHOUSE + y
    ensures MARKET + x !in FIXED && WAREHOUSE + y !in FIXED
  {
    assert (MARKET + x)[0] == 'm' && (MARKET + x)[2] == 'r' && (WAREHOUSE + y)[0] == 'w';
    assert "client"[0] == 'c' && "accounting"[0] == 'a' && "mapping"[0] == 'm' && "mapping"[2] == 'p';
  }

  lemma FixedDistinct()
    ensures Distinct(FIXED)
  {
    assert "client"[0] == 'c' && "accounting"[0] == 'a' && "mapping"[0] == 'm';
  }

  /** A list made of parts no two of which share an element, all but one of them known to be distinct. */
  lemma DistinctParts(all: seq<string>, fixed: seq<string>, known: seq<string>, open: seq<string>)
    requires multiset(all) == multiset(fixed) + multiset(known) + multiset(open)
    requires Distinct(fixed) && Distinct(known)
    requires forall x :: !(x in known && x in open) && !(x in fixed && x in known) && !(x in fixed && x in open)
    ensures Distinct(all) <==> Distinct(open)
  {
    DistinctMultiplicity(all);
    DistinctMultiplicity(fixed);
    DistinctMultiplicity(known);
    DistinctMultiplicity(open);
    forall x ensures multiset(all)[x] <= 1 <==> multiset(open)[x] <= 1 {
      assert multiset(fixed)[x] <= 1 && multiset(known)[x] <= 1;
      assert x in multiset(fixed) <==> x in fixed;
      assert x in multiset(known) <==> x in known;
      assert x in multiset(open) <==> x in open;
    }
  }

  lemma TailsDistinctExactly(r: Request, prefix: string)
    requires UniqueMarkets(r)
    ensures Distinct(Tails(StepsOf(r, prefix))) <==> Distinct(Names(r.markets))
  {
    PlanTails(r, prefix);
    FixedDistinct();
    PrefixedDistinct(MARKET, Ids(r.markets));
    PrefixedDistinct(WAREHOUSE, Names(r.markets));
    var known, open := Prefixed(MARKET, Ids(r.markets)), Prefixed(WAREHOUSE, Names(r.markets));
    forall x ensures !(x in known && x in open) && !(x in FIXED && x in known) && !(x in FIXED && x in open) {
      if x in known {
        PrefixedOnly(MARKET, Ids(r.markets), x);
        var y :| x == MARKET + y;
        if x in open {
          PrefixedOnly(WAREHOUSE, Names(r.markets), x);
          var z :| x == WAREHOUSE + z;
          KindsApart(y, z);
        }
        KindsApart(y, "");
      } else if x in open {
        PrefixedOnly(WAREHOUSE, Names(r.markets), x);
        var z :| x == WAREHOUSE + z;
        KindsApart("", z);
      }
    }
    DistinctParts(Tails(StepsOf(r, prefix)), FIXED, known, open);
  }

  lemma {:induction false} EveryStepKeyed(r: Request, prefix: string)
    ensures forall i :: 0 <= i < |StepsOf(r, prefix)| ==>
              StepsOf(r, prefix)[i].key == (prefix + ":") + Tail(StepsOf(r, prefix)[i].detail)
  {
    MarketStepsKeyed(prefix, Sorted(r.markets, IdOf));
  }

  lemma {:induction false} MarketStepsKeyed(prefix: string, markets: seq<Market>)
    ensures forall s :: s in MarketSteps(prefix, markets) ==> s == StepFor(prefix, s.detail)
  {
    if markets != [] {
      MarketStepsKeyed(prefix, markets[..|markets| - 1]);
      var m := markets[|markets| - 1];
      WarehouseStepsKeyed(prefix, m, Sorted(m.warehouses, Itself));
    }
  }

  lemma {:induction false} WarehouseStepsKeyed(prefix: string, m: Market, codes: seq<string>)
    ensures forall s :: s in WarehouseSteps(prefix, m, codes) ==> s == StepFor(prefix, s.detail)
  {
    if codes != [] { WarehouseStepsKeyed(prefix, m, codes[..|codes| - 1]); }
  }

  /** A validated request's step keys are distinct exactly when its `market:warehouse` names are. */
  lemma KeysDistinctExactly(r: Request, digest: Digest, order: Iteration)
    requires UniqueMarkets(r)
    ensures Distinct(Keys(PlanOf(r, digest, order).steps)) <==> Distinct(Names(r.markets))
  {
    var plan := PlanOf(r, digest, order);
    var prefix := Prefix(r, plan.digest);
    EveryStepKeyed(r, prefix);
    assert Keys(plan.steps) == Prefixed(prefix + ":", Tails(plan.steps));
    PrefixedDistinct(prefix + ":", Tails(plan.steps));
    TailsDistinctExactly(r, prefix);
  }

  lemma DistinctAppend(a: seq<string>, b: seq<string>)
    requires Distinct(a) && Distinct(b) && forall x :: !(x in a && x in b)
    ensures Distinct(a + b)
  {
    forall i, j | 0 <= i < j < |a + b| ensures (a + b)[i] != (a + b)[j] {
      if i < |a| <= j { assert a[i] in a && b[j - |a|] in b; }
    }
  }

  predicate Plain(m: Market) {
    ColonFree(m.marketId) && Distinct(m.warehouses)
  }

  lemma {:induction false} NamesSplit(markets: seq<Market>, x: string)
    requires x in Names(markets)
    ensures exists i, code :: 0 <= i < |markets| && x == markets[i].marketId + ":" + code
  {
    var n := |markets| - 1;
    if x in NamesIn(markets[n]) {
      var k :| 0 <= k < |markets[n].warehouses| && NamesIn(markets[n])[k] == x;
      assert x == markets[n].marketId + ":" + markets[n].warehouses[k];
    } else {
      NamesSplit(markets[..n], x);
      var i, code :| 0 <= i < n && x == markets[..n][i].marketId + ":" + code;
      assert x == markets[i].marketId + ":" + code;
    }
  }

  /** Colon-free market ids with distinct codes each are enough. */
  lemma {:induction false} ColonFreeNamesDistinct(markets: seq<Market>)
    requires forall i, j :: 0 <= i < j < |markets| ==> markets[i].marketId != markets[j].marketId
    requires forall i :: 0 <= i < |markets| ==> Plain(markets[i])
    ensures Distinct(Names(markets))
  {
    if markets != [] {
      var n := |markets| - 1;
      var m := markets[n];
      assert Plain(m);
      ColonFreeNamesDistinct(markets[..n]);
      PrefixedDistinct(m.marketId + ":", m.warehouses);
      forall x | x in Names(markets[..n]) ensures x !in NamesIn(m) {
        NamesSplit(markets[..n], x);
        var i, code :| 0 <= i < n && x == markets[..n][i].marketId + ":" + code;
        assert Plain(markets[i]);
        if k :| 0 <= k < |m.warehouses| && NamesIn(m)[k] == x {
          ColonSplits(markets[i].marketId, code, m.marketId, m.warehouses[k]);
        }
      }
      DistinctAppend(Names(markets[..n]), NamesIn(m));
    }
  }

  /** The form in which requests reach the planner. Their markets are the plan's own, each once, under a country code,
      with the distinct warehouse codes of the deployment configuration; their ids join a provisioning id, a legal
      entity id and a version with dots (modules/provisioning/cp_contract.py:97-111, 151-177,
      market_configuration.py:78-107). */
  predicate AcceptedForm(r: Request) {
    ColonFree(r.provisioningId) && PlainMarkets(r)
  }

  predicate PlainMarkets(r: Request) {
    UniqueMarkets(r) && forall i :: 0 <= i < |r.markets| ==> Plain(r.markets[i])
  }

  lemma KeysDistinct(r: Request, digest: Digest, order: Iteration)
    requires PlainMarkets(r)
    ensures Distinct(Keys(PlanOf(r, digest, order).steps))
  {
    ColonFreeNamesDistinct(r.markets);
    KeysDistinctExactly(r, digest, order);
  }

  function PlainMarket(marketId: string, code: string): Market {
    Market(marketId, "DE", {}, ["EUR"], "profile", [code], [])
  }

  /** With a colon in a market id two different warehouses can get one key. */
  lemma ColonInMarketCollides(r: Request, digest: Digest, order: Iteration)
    requires r.markets == [PlainMarket("a", "b:c"), PlainMarket("a:b", "c")]
    ensures UniqueMarkets(r) && !Distinct(Keys(PlanOf(r, digest, order).steps))
  {
    assert "a" != "a:b";
    NamesAppend([], r.markets[0]);
    NamesAppend([r.markets[0]], r.markets[1]);
    assert NamesIn(r.markets[0])[0] == "a" + ":" + "b:c" == "a:b:c";
    assert NamesIn(r.markets[1])[0] == "a:b" + ":" + "c" == "a:b:c";
    assert [] + [r.markets[0]] == [r.markets[0]] && [r.markets[0]] + [r.markets[1]] == r.markets;
    assert Names(r.markets)[0] == Names(r.markets)[1];
    KeysDistinctExactly(r, digest, order);
  }

  lemma KeyOpens(pid: string, digest: string, tail: string)
    ensures (pid + ":" + digest) + ":" + tail == pid + ":" + (digest + ":" + tail)
  {
  }

  /** A step's key starts with its operation's id and a colon. */
  lemma KeyNamesOperation(r: Request, digest: Digest, order: Iteration, i: nat) returns (rest: string)
    requires i < |PlanOf(r, digest, order).steps|
    ensures PlanOf(r, digest, order).steps[i].key == r.provisioningId + ":" + rest
  {
    var d := digest(DesiredState(r, order));
    var prefix := Prefix(r, d);
    EveryStepKeyed(r, prefix);
    var tail := Tail(StepsOf(r, prefix)[i].detail);
    rest := First12(d) + ":" + tail;
    KeyOpens(r.provisioningId, First12(d), tail);
  }

  /** Two operations never share a step key. */
  lemma OperationsApart(a: Request, b: Request, digest: Digest, order: Iteration, i: nat, j: nat)
    requires ColonFree(a.provisioningId) && ColonFree(b.provisioningId) && a.provisioningId != b.provisioningId
    requires i < |PlanOf(a, digest, order).steps| && j < |PlanOf(b, digest, order).steps|
    ensures PlanOf(a, digest, order).steps[i].key != PlanOf(b, digest, order).steps[j].key
  {
    var x := KeyNamesOperation(a, digest, order, i);
    var y := KeyNamesOperation(b, digest, order, j);
    if a.provisioningId + ":" + x == b.provisioningId + ":" + y {
      ColonSplits(a.provisioningId, x, b.provisioningId, y);
    }
  }

  lemma KeyNamesState(r: Request, digest: Digest, order: Iteration, i: nat) returns (rest: string)
    requires i < |PlanOf(r, digest, order).steps|
    ensures PlanOf(r, digest, order).steps[i].key
         == r.provisioningId + ":" + (First12(digest(DesiredState(r, order))) + ":" + rest)
  {
    var d := digest(DesiredState(r, order));
    EveryStepKeyed(r, Prefix(r, d));
    rest := Tail(StepsOf(r, Prefix(r, d))[i].detail);
    KeyOpens(r.provisioningId, First12(d), rest);
  }

  /** One operation planned anew for another state shares no step key with its earlier plan, if the digests differ where
      the keys show them; a hexadecimal digest has no colon. */
  lemma StatesApart(a: Request, b: Request, digest: Digest, order: Iteration, i: nat, j: nat)
    requires a.provisioningId == b.provisioningId
    requires var d, e := digest(DesiredState(a, order)), digest(DesiredState(b, order));
             ColonFree(d) && ColonFree(e) && |d| >= 12 && |e| >= 12 && d[..12] != e[..12]
    requires i < |PlanOf(a, digest, order).steps| && j < |PlanOf(b, digest, order).steps|
    ensures PlanOf(a, digest, order).steps[i].key != PlanOf(b, digest, order).steps[j].key
  {
    var d, e := First12(digest(DesiredState(a, order))), First12(digest(DesiredState(b, order)));
    var x := KeyNamesState(a, digest, order, i);
    var y := KeyNamesState(b, digest, order, j);
    if PlanOf(a, digest, order).steps[i].key == PlanOf(b, digest, order).steps[j].key {
      SuffixEqual(a.provisioningId + ":", d + ":" + x, e + ":" + y);
      ColonSplits(d, x, e, y);
    }
  }

  /** The plan does not depend on the order the request's sets are met in. */
  lemma PlanForgetsOrder(r: Request, digest: Digest, order: Iteration, other: Iteration)
    requires Iterates(order) && Iterates(other)
    ensures PlanOf(r, digest, order) == PlanOf(r, digest, other)
  {
    SerialisationForgetsOrder(r, order, other);
  }

  // ---------------------------------------------------------------------------------------------------------------
  // Markers and mapping keys
  // ---------------------------------------------------------------------------------------------------------------

  /** The engine's Description column holds 255 characters; a longer marker is refused, not cut. */
  function Marker(key: string): Option<string> {
    var marker := "baobab-provisioning:" + key;
    if |marker| > 255 then None else Some(marker)
  }

  function KindText(kind: StepKind): (s: string)
    ensures ColonFree(s)
  {
    match kind
    case CREATE_CLIENT => "create_client"
    case CONFIGURE_ACCOUNTING => "configure_accounting"
    case CONFIGURE_LOCALISATION => "configure_localisation"
    case CREATE_WAREHOUSE => "create_warehouse"
    case PERSIST_MAPPING => "persist_mapping"
  }

  function ResourceKey(s: Step): string {
    KindText(KindOf(s.detail)) + ":" + s.key
  }

  const CLIENT_ALIAS := "AD_Client" + ":" + "primary"

  /** Different keys leave different markers and different mapping rows, none of them the client's alias. */
  lemma NamesApart(s: Step, t: Step)
    ensures Marker(s.key).Some? && Marker(s.key) == Marker(t.key) ==> s.key == t.key
    ensures ResourceKey(s) == ResourceKey(t) ==> s.key == t.key
    ensures ResourceKey(s) != CLIENT_ALIAS
  {
    if Marker(s.key).Some? && Marker(s.key) == Marker(t.key) { SuffixEqual("baobab-provisioning:", s.key, t.key); }
    if ResourceKey(s) == ResourceKey(t) {
      ColonSplits(KindText(KindOf(s.detail)), s.key, KindText(KindOf(t.detail)), t.key);
    }
    AliasApart(KindText(KindOf(s.detail)), s.key);
  }

  lemma AliasApart(kind: string, key: string)
    requires ColonFree(kind) && kind != "AD_Client"
    ensures kind + ":" + key != CLIENT_ALIAS
  {
    if kind + ":" + key == CLIENT_ALIAS {
      assert ColonFree("AD_Client");
      ColonSplits(kind, key, "AD_Client", "primary");
    }
  }
}
