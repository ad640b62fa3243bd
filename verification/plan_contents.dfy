/** What a provisioning plan says, read off the request alone: which steps it has, what each of them is given, and in
    which order they come (modules/provisioning/planner.py). */
module PlanContents {
  import opened Prelude
  import opened Ordering
  import opened RequestState
  import opened ProvisioningPlan

  // ---------------------------------------------------------------------------------------------------------------
  // Contents
  // ---------------------------------------------------------------------------------------------------------------

  predicate LastFor(zones: seq<(string, string)>, i: nat, code: string) {
    i < |zones| && zones[i].0 == code && forall j :: i < j < |zones| ==> zones[j].0 != code
  }

  /** The zone a warehouse is created with: its last entry's, unless that is empty. */
  ghost predicate ZoneOf(zones: seq<(string, string)>, code: string, zone: Option<string>) {
    match zone
    case Some(name) => name != "" && exists i: nat :: LastFor(zones, i, code) && zones[i].1 == name
    case None => forall i: nat :: LastFor(zones, i, code) ==> zones[i].1 == ""
  }

  /** A step for the market itself, or for one of its warehouses. */
  ghost predicate FromMarket(m: Market, detail: Detail) {
    || detail == LocalisationDetail(m.marketId, m.countryCode, m.profile)
    || (detail.WarehouseDetail? && detail.marketId == m.marketId && detail.code in m.warehouses
        && ZoneOf(m.timezones, detail.code, detail.timezone))
  }

  ghost predicate FromOne(markets: seq<Market>, detail: Detail) {
    exists m :: m in markets && FromMarket(m, detail)
  }

  ghost predicate Planned(r: Request, detail: Detail) {
    || detail == ClientDetail(r.legalName)
    || detail == AccountingDetail(r.accounting)
    || detail == MappingDetail(r.tenant, r.legalEntity, r.instance, r.planDigest)
    || FromOne(r.markets, detail)
  }

  predicate Details(steps: seq<Step>, detail: Detail) {
    exists s :: s in steps && s.detail == detail
  }

  lemma {:induction false} ZoneFound(zones: seq<(string, string)>, code: string, zone: Option<string>)
    ensures ZoneOf(zones, code, zone) <==> zone == TimezoneOf(zones, code)
  {
    if zones != [] {
      var n := |zones| - 1;
      if zones[n].0 == code {
        assert LastFor(zones, n, code);
        assert forall i: nat :: LastFor(zones, i, code) ==> i == n;
      } else {
        ZoneFound(zones[..n], code, zone);
        forall i: nat ensures LastFor(zones, i, code) <==> LastFor(zones[..n], i, code) {
        }
      }
    }
  }

  lemma DetailsAppend(a: seq<Step>, b: seq<Step>, detail: Detail)
    ensures Details(a + b, detail) <==> Details(a, detail) || Details(b, detail)
  {
  }

  lemma DetailsOne(prefix: string, own: Detail, detail: Detail)
    ensures Details([StepFor(prefix, own)], detail) <==> detail == own
  {
    assert StepFor(prefix, own) in [StepFor(prefix, own)];
  }

  lemma {:induction false} WarehouseContents(prefix: string, m: Market, codes: seq<string>, detail: Detail)
    ensures Details(WarehouseSteps(prefix, m, codes), detail) <==>
              && detail.WarehouseDetail? && detail.marketId == m.marketId && detail.code in codes
              && ZoneOf(m.timezones, detail.code, detail.timezone)
  {
    if codes != [] {
      var n := |codes| - 1;
      WarehouseContents(prefix, m, codes[..n], detail);
      DetailsAppend(WarehouseSteps(prefix, m, codes[..n]), [StepFor(prefix, WarehouseOf(m, codes[n]))], detail);
      DetailsOne(prefix, WarehouseOf(m, codes[n]), detail);
      assert codes == codes[..n] + [codes[n]];
      if detail.WarehouseDetail? { ZoneFound(m.timezones, detail.code, detail.timezone); }
    }
  }

  lemma OwnContents(prefix: string, m: Market, detail: Detail)
    ensures Details(OwnSteps(prefix, m), detail) <==> FromMarket(m, detail)
  {
    var codes := Sorted(m.warehouses, Itself);
    WarehouseContents(prefix, m, codes, detail);
    DetailsAppend([StepFor(prefix, MarketDetail(m))], WarehouseSteps(prefix, m, codes), detail);
    DetailsOne(prefix, MarketDetail(m), detail);
    if detail.WarehouseDetail? { SortedHasTheSame(m.warehouses, Itself, detail.code); }
  }

  lemma FromOneMore(markets: seq<Market>, m: Market, detail: Detail)
    ensures FromOne(markets + [m], detail) <==> FromOne(markets, detail) || FromMarket(m, detail)
  {
    assert m in markets + [m];
    forall k ensures k in markets + [m] <==> k in markets || k == m {
    }
  }

  lemma {:induction false} MarketContents(prefix: string, markets: seq<Market>, detail: Detail)
    ensures Details(MarketSteps(prefix, markets), detail) <==> FromOne(markets, detail)
  {
    if markets != [] {
      var n := |markets| - 1;
      MarketContents(prefix, markets[..n], detail);
      OwnContents(prefix, markets[n], detail);
      DetailsAppend(MarketSteps(prefix, markets[..n]), OwnSteps(prefix, markets[n]), detail);
      FromOneMore(markets[..n], markets[n], detail);
      assert markets == markets[..n] + [markets[n]];
    }
  }

  lemma SortedMarkets(markets: seq<Market>, detail: Detail)
    ensures FromOne(Sorted(markets, IdOf), detail) <==> FromOne(markets, detail)
  {
    forall m ensures m in Sorted(markets, IdOf) <==> m in markets { SortedHasTheSame(markets, IdOf, m); }
  }

  /** A plan has a step for the client, the accounting, every market, every warehouse of a market and the tenant
      mapping, each given what the request says of it, and no other. */
  lemma PlanCarriesRequest(r: Request, digest: Digest, order: Iteration, detail: Detail)
    ensures Details(PlanOf(r, digest, order).steps, detail) <==> Planned(r, detail)
  {
    var prefix := Prefix(r, PlanOf(r, digest, order).digest);
    var client := StepFor(prefix, ClientDetail(r.legalName));
    var accounting := StepFor(prefix, AccountingDetail(r.accounting));
    var middle := MarketSteps(prefix, Sorted(r.markets, IdOf));
    assert [client, accounting] == [client] + [accounting];
    DetailsAppend([client], [accounting], detail);
    DetailsAppend([client, accounting], middle, detail);
    DetailsAppend([client, accounting] + middle, [StepFor(prefix, MappingOf(r))], detail);
    DetailsOne(prefix, client.detail, detail);
    DetailsOne(prefix, accounting.detail, detail);
    DetailsOne(prefix, MappingOf(r), detail);
    MarketContents(prefix, Sorted(r.markets, IdOf), detail);
    SortedMarkets(r.markets, detail);
  }

  // ---------------------------------------------------------------------------------------------------------------
  // Order
  // ---------------------------------------------------------------------------------------------------------------

  predicate OfMarket(d: Detail) {
    d.LocalisationDetail? || d.WarehouseDetail?
  }

  /** By market id, a market before its warehouses, and those by code. */
  predicate InOrder(a: Detail, b: Detail) {
    && OfMarket(a) && OfMarket(b) && Leq(a.marketId, b.marketId)
    && (a.marketId == b.marketId ==> b.WarehouseDetail? && (a.WarehouseDetail? ==> Leq(a.code, b.code)))
  }

  predicate AllInOrder(steps: seq<Step>) {
    forall i, j :: 0 <= i < j < |steps| ==> InOrder(steps[i].detail, steps[j].detail)
  }

  lemma {:induction false} WarehousesInOrder(prefix: string, m: Market, codes: seq<string>)
    requires Ascending(codes, Itself)
    ensures var steps := WarehouseSteps(prefix, m, codes);
            && |steps| == |codes| && AllInOrder(steps)
            && forall i :: 0 <= i < |steps| ==>
                  steps[i].detail.WarehouseDetail? && steps[i].detail.marketId == m.marketId
                  && steps[i].detail.code == codes[i]
  {
    if codes != [] {
      var n := |codes| - 1;
      WarehousesInOrder(prefix, m, codes[..n]);
      LeqTotal(m.marketId, m.marketId);
      forall i | 0 <= i < n ensures Leq(codes[i], codes[n]) { assert Leq(Itself(codes[i]), Itself(codes[n])); }
    }
  }

  lemma OwnInOrder(prefix: string, m: Market)
    ensures AllInOrder(OwnSteps(prefix, m))
    ensures forall s :: s in OwnSteps(prefix, m) ==> OfMarket(s.detail) && s.detail.marketId == m.marketId
  {
    SortedAscends(m.warehouses, Itself);
    WarehousesInOrder(prefix, m, Sorted(m.warehouses, Itself));
    LeqTotal(m.marketId, m.marketId);
  }

  predicate Rising(markets: seq<Market>) {
    forall i, j :: 0 <= i < j < |markets| ==>
      Leq(markets[i].marketId, markets[j].marketId) && markets[i].marketId != markets[j].marketId
  }

  lemma AppendInOrder(a: seq<Step>, b: seq<Step>)
    requires AllInOrder(a) && AllInOrder(b)
    requires forall s, t :: s in a && t in b ==> InOrder(s.detail, t.detail)
    ensures AllInOrder(a + b)
  {
    forall i, j | 0 <= i < j < |a + b| ensures InOrder((a + b)[i].detail, (a + b)[j].detail) {
      if i < |a| <= j { assert (a + b)[i] in a && (a + b)[j] in b; }
    }
  }

  lemma {:induction false} MarketsInOrder(prefix: string, markets: seq<Market>)
    requires Rising(markets)
    ensures AllInOrder(MarketSteps(prefix, markets))
    ensures forall s :: s in MarketSteps(prefix, markets) ==>
              OfMarket(s.detail) && exists i :: 0 <= i < |markets| && markets[i].marketId == s.detail.marketId
  {
    if markets != [] {
      var n := |markets| - 1;
      MarketsInOrder(prefix, markets[..n]);
      OwnInOrder(prefix, markets[n]);
      AppendInOrder(MarketSteps(prefix, markets[..n]), OwnSteps(prefix, markets[n]));
    }
  }

  lemma SortedIsRising(r: Request)
    requires UniqueMarkets(r)
    ensures Rising(Sorted(r.markets, IdOf))
  {
    var sorted := Sorted(r.markets, IdOf);
    SortedAscends(r.markets, IdOf);
    IdsOfSorted(r.markets);
    DistinctMultiplicity(Ids(r.markets));
    DistinctMultiplicity(Ids(sorted));
    forall i, j | 0 <= i < j < |sorted|
      ensures Leq(sorted[i].marketId, sorted[j].marketId) && sorted[i].marketId != sorted[j].marketId
    {
      assert Leq(IdOf(sorted[i]), IdOf(sorted[j]));
      assert Ids(sorted)[i] != Ids(sorted)[j];
    }
  }

  /** The client comes first, then the accounting, then the markets by id, each before its warehouses by code, and the
      tenant mapping last. */
  lemma PlanInOrder(r: Request, digest: Digest, order: Iteration)
    requires UniqueMarkets(r)
    ensures var steps := PlanOf(r, digest, order).steps;
            && |steps| >= 3 && steps[0].detail.ClientDetail? && steps[1].detail.AccountingDetail?
            && steps[|steps| - 1].detail.MappingDetail? && AllInOrder(steps[2..|steps| - 1])
  {
    var prefix := Prefix(r, PlanOf(r, digest, order).digest);
    SortedIsRising(r);
    MarketsInOrder(prefix, Sorted(r.markets, IdOf));
    var steps := PlanOf(r, digest, order).steps;
    assert steps[2..|steps| - 1] == MarketSteps(prefix, Sorted(r.markets, IdOf));
  }
}
