/**
 A provisioning request, its canonical serialisation (modules/provisioning/model.py, planner.py) and the reader that
 takes it back from storage and refuses anything that is not the accepted request (request_state.py).

 JSON text is not modelled: a document is a tree, its text and SHA-256 one injective function of the
 tree. */
module RequestState {
  import opened Prelude
  import opened Ordering
  import opened IsoText

  datatype Market = Market(
    marketId: string,
    countryCode: string,
    participation: set<string>,
    currencies: seq<string>,
    profile: string,
    warehouses: seq<string>,
    timezones: seq<(string, string)>)

  datatype Accounting = Accounting(
    currency: string,
    fiscalMonth: int,
    chart: string,
    schema: string,
    tax: string,
    costing: string,
    approvedBy: string,
    approvedAt: Instant)

  datatype Request = Request(
    provisioningId: string,
    idempotencyKey: string,
    tenant: string,
    legalEntity: string,
    legalName: string,
    registration: string,
    jurisdiction: string,
    instance: string,
    isolation: string,
    planDigest: string,
    environment: string,
    effectiveDate: Date,
    accounting: Accounting,
    markets: seq<Market>,
    capabilities: set<string>)

  // ---------------------------------------------------------------------------------------------------------------
  // The tree
  // ---------------------------------------------------------------------------------------------------------------

  /** The member names the reader looks for, and any other. */
  datatype Member =
    | PROVISIONING_ID | IDEMPOTENCY_KEY | TENANT_ID | LEGAL_ENTITY_ID | LEGAL_NAME | REGISTRATION_IDENTIFIER
    | JURISDICTION_CODE
    | ENGINE_INSTANCE_ID | ISOLATION_REQUIREMENT | PLAN_DIGEST | TARGET_ENVIRONMENT | EFFECTIVE_DATE | ACCOUNTING
    | MARKETS
    | REQUESTED_CAPABILITIES
    | MARKET_ID | COUNTRY_CODE | PARTICIPATION_CAPABILITIES | CURRENCIES | LOCALISATION_PROFILE | WAREHOUSE_CODES
    | WAREHOUSE_TIMEZONES
    | FUNCTIONAL_CURRENCY | FISCAL_YEAR_START_MONTH | CHART_OF_ACCOUNTS_TEMPLATE | ACCOUNTING_SCHEMA | TAX_PROFILE
    | COSTING_METHOD
    | APPROVED_BY | APPROVED_AT
    | Unread(name: string)

  datatype Json =
    | Null
    | Flag(flag: bool)
    | Whole(n: int)
    | Fraction(r: real)
    | Text(s: string)
    | List(items: seq<Json>)
    | Object(members: map<Member, Json>)

  /** The order each set's elements happen to be met in. */
  type Iteration = set<string> -> seq<string>

  ghost predicate Iterates(order: Iteration) {
    forall s :: Enumerates(order(s), s)
  }

  function Texts(xs: seq<string>): Json {
    List(seq(|xs|, i requires 0 <= i < |xs| => Text(xs[i])))
  }

  function Pairs(xs: seq<(string, string)>): Json {
    List(seq(|xs|, i requires 0 <= i < |xs| => Texts([xs[i].0, xs[i].1])))
  }

  /** `sorted` over a set. */
  function SetState(s: set<string>, order: Iteration): Json {
    Texts(Sorted(order(s), Itself))
  }

  function MarketState(m: Market, order: Iteration): Json {
    var members := map[
      MARKET_ID := Text(m.marketId), COUNTRY_CODE := Text(m.countryCode),
      PARTICIPATION_CAPABILITIES := SetState(m.participation, order), CURRENCIES := Texts(m.currencies),
      LOCALISATION_PROFILE := Text(m.profile), WAREHOUSE_CODES := Texts(m.warehouses)];
    Object(if m.timezones == [] then members else members[WAREHOUSE_TIMEZONES := Pairs(m.timezones)])
  }

  function AccountingState(a: Accounting): Json {
    Object(map[
      FUNCTIONAL_CURRENCY := Text(a.currency), FISCAL_YEAR_START_MONTH := Whole(a.fiscalMonth),
      CHART_OF_ACCOUNTS_TEMPLATE := Text(a.chart), ACCOUNTING_SCHEMA := Text(a.schema), TAX_PROFILE := Text(a.tax),
      COSTING_METHOD := Text(a.costing), APPROVED_BY := Text(a.approvedBy),
      APPROVED_AT := Text(InstantText(a.approvedAt))])
  }

  function MarketStates(ms: seq<Market>, order: Iteration): seq<Json> {
    seq(|ms|, i requires 0 <= i < |ms| => MarketState(ms[i], order))
  }

  function Members(r: Request, markets: seq<Json>, order: Iteration): map<Member, Json> {
    map[
      PROVISIONING_ID := Text(r.provisioningId), IDEMPOTENCY_KEY := Text(r.idempotencyKey), TENANT_ID := Text(r.tenant),
      LEGAL_ENTITY_ID := Text(r.legalEntity), LEGAL_NAME := Text(r.legalName),
      REGISTRATION_IDENTIFIER := Text(r.registration), JURISDICTION_CODE := Text(r.jurisdiction),
      ENGINE_INSTANCE_ID := Text(r.instance), ISOLATION_REQUIREMENT := Text(r.isolation),
      PLAN_DIGEST := Text(r.planDigest), TARGET_ENVIRONMENT := Text(r.environment),
      EFFECTIVE_DATE := Text(DateText(r.effectiveDate)), ACCOUNTING := AccountingState(r.accounting),
      MARKETS := List(markets), REQUESTED_CAPABILITIES := SetState(r.capabilities, order)]
  }

  /** `desired_state_json`, as a tree. */
  function DesiredState(r: Request, order: Iteration): Json {
    Object(Members(r, MarketStates(r.markets, order), order))
  }

  /** As the code makes it: every member of every market first, then the empty timezones deleted in place. */
  method BuildDesiredState(r: Request, order: Iteration) returns (document: Json)
    ensures document == DesiredState(r, order)
  {
    var markets: seq<Json> := [];
    for i := 0 to |r.markets|
      invariant markets == MarketStates(r.markets[..i], order)
    {
      var m := r.markets[i];
      var members := map[
        MARKET_ID := Text(m.marketId), COUNTRY_CODE := Text(m.countryCode),
        PARTICIPATION_CAPABILITIES := SetState(m.participation, order), CURRENCIES := Texts(m.currencies),
        LOCALISATION_PROFILE := Text(m.profile), WAREHOUSE_CODES := Texts(m.warehouses),
        WAREHOUSE_TIMEZONES := Pairs(m.timezones)];
      if m.timezones == [] {
        members := members - {WAREHOUSE_TIMEZONES};
      }
      assert Object(members) == MarketState(m, order);
      markets := markets + [Object(members)];
    }
    assert r.markets[..|r.markets|] == r.markets;
    document := Object(Members(r, markets, order));
  }

  // ---------------------------------------------------------------------------------------------------------------
  // The reader
  // ---------------------------------------------------------------------------------------------------------------

  datatype StateError = Unreadable | Drift

  type Read<T> = Result<T, StateError>

  function Get(members: map<Member, Json>, m: Member): Read<Json> {
    if m in members then Ok(members[m]) else Err(Unreadable)
  }

  function GetText(members: map<Member, Json>, m: Member): Read<string> {
    var value :- Get(members, m);
    if value.Text? then Ok(value.s) else Err(Unreadable)
  }

  /** A list of strings; a bare string iterates as its characters. */
  function ReadTexts(j: Json): Read<seq<string>> {
    if j.Text? then Ok(seq(|j.s|, i requires 0 <= i < |j.s| => [j.s[i]]))
    else if j.List? && forall i :: 0 <= i < |j.items| ==> j.items[i].Text? then
      Ok(seq(|j.items|, i requires 0 <= i < |j.items| => j.items[i].s))
    else Err(Unreadable)
  }

  /** A list of two-element lists of strings. */
  function ReadPairs(items: seq<Json>): Read<seq<(string, string)>> {
    if items == [] then Ok([])
    else
      var n := |items| - 1;
      var earlier :- ReadPairs(items[..n]);
      var last :- ReadTexts(items[n]);
      if |last| == 2 then Ok(earlier + [(last[0], last[1])]) else Err(Unreadable)
  }

  function ReadMarket(j: Json): Read<Market> {
    if !j.Object? then Err(Unreadable)
    else
      var raw := j.members;
      var marketId :- GetText(raw, MARKET_ID);
      var countryCode :- GetText(raw, COUNTRY_CODE);
      var participationState :- Get(raw, PARTICIPATION_CAPABILITIES);
      var participation :- ReadTexts(participationState);
      var currenciesState :- Get(raw, CURRENCIES);
      var currencies :- ReadTexts(currenciesState);
      var profile :- GetText(raw, LOCALISATION_PROFILE);
      var warehouses :- ReadTexts(if WAREHOUSE_CODES in raw then raw[WAREHOUSE_CODES] else List([]));
      var zones := if WAREHOUSE_TIMEZONES in raw then raw[WAREHOUSE_TIMEZONES] else List([]);
      var timezones :- if zones.List? then ReadPairs(zones.items) else Err(Unreadable);
      Ok(Market(marketId, countryCode, (set x | x in participation), currencies, profile, warehouses, timezones))
  }

  function ReadMarkets(items: seq<Json>): Read<seq<Market>> {
    if items == [] then Ok([])
    else
      var earlier :- ReadMarkets(items[..|items| - 1]);
      var last :- ReadMarket(items[|items| - 1]);
      Ok(earlier + [last])
  }

  /** `int(...)`: a number loses its fraction toward zero, a flag counts, and decimal text is read. */
  function ReadInt(j: Json): Read<int> {
    match j
    case Whole(n) => Ok(n)
    case Flag(b) => Ok(if b then 1 else 0)
    case Fraction(x) => Ok(if x < 0.0 then -(-x).Floor else x.Floor)
    case Text(s) =>
      if s != [] && AllDigits(s) then Ok(IsoText.Read(s))
      else if |s| > 1 && s[0] == '-' && AllDigits(s[1..]) then Ok(0 - IsoText.Read(s[1..]))
      else Err(Unreadable)
    case _ => Err(Unreadable)
  }

  function ReadAccounting(j: Json): Read<Accounting> {
    if !j.Object? then Err(Unreadable)
    else
      var raw := j.members;
      var currency :- GetText(raw, FUNCTIONAL_CURRENCY);
      var month :- Get(raw, FISCAL_YEAR_START_MONTH);
      var fiscalMonth :- ReadInt(month);
      var chart :- GetText(raw, CHART_OF_ACCOUNTS_TEMPLATE);
      var schema :- GetText(raw, ACCOUNTING_SCHEMA);
      var tax :- GetText(raw, TAX_PROFILE);
      var costing :- GetText(raw, COSTING_METHOD);
      var approvedBy :- GetText(raw, APPROVED_BY);
      var approval :- GetText(raw, APPROVED_AT);
      var approvedAt := ParseInstant(approval);
      if approvedAt.None? then Err(Unreadable)
      else Ok(Accounting(currency, fiscalMonth, chart, schema, tax, costing, approvedBy, approvedAt.value))
  }

  /** The members that identify a request, those that place it, and those with structure of their own. */
  datatype Identity = Identity(provisioningId: string, idempotencyKey: string, tenant: string, legalEntity: string,
      legalName: string,
                         registration: string)

  datatype Placing = Placing(jurisdiction: string, instance: string, isolation: string, planDigest: string,
      environment: string,
                         effectiveDate: Date)

  datatype Composition = Composition(accounting: Accounting, markets: seq<Market>, capabilities: set<string>)

  function ReadIdentity(state: map<Member, Json>): Read<Identity> {
    var provisioningId :- GetText(state, PROVISIONING_ID);
    var idempotencyKey :- GetText(state, IDEMPOTENCY_KEY);
    var tenant :- GetText(state, TENANT_ID);
    var legalEntity :- GetText(state, LEGAL_ENTITY_ID);
    var legalName :- GetText(state, LEGAL_NAME);
    var registration :- GetText(state, REGISTRATION_IDENTIFIER);
    Ok(Identity(provisioningId, idempotencyKey, tenant, legalEntity, legalName, registration))
  }

  function ReadPlacing(state: map<Member, Json>): Read<Placing> {
    var jurisdiction :- GetText(state, JURISDICTION_CODE);
    var instance :- GetText(state, ENGINE_INSTANCE_ID);
    var isolation :- GetText(state, ISOLATION_REQUIREMENT);
    var planDigest :- GetText(state, PLAN_DIGEST);
    var environment :- GetText(state, TARGET_ENVIRONMENT);
    var date :- GetText(state, EFFECTIVE_DATE);
    if ParseDate(date).None? then Err(Unreadable)
    else Ok(Placing(jurisdiction, instance, isolation, planDigest, environment, ParseDate(date).value))
  }

  function ReadComposition(state: map<Member, Json>): Read<Composition> {
    var accountingState :- Get(state, ACCOUNTING);
    var accounting :- ReadAccounting(accountingState);
    var marketStates :- Get(state, MARKETS);
    var markets :- if marketStates.List? then ReadMarkets(marketStates.items) else Err(Unreadable);
    var capabilities :- ReadTexts(if REQUESTED_CAPABILITIES in state then state[REQUESTED_CAPABILITIES] else List([]));
    Ok(Composition(accounting, markets, set x | x in capabilities))
  }

  function RequestOf(n: Identity, t: Placing, c: Composition): Request {
    Request(n.provisioningId, n.idempotencyKey, n.tenant, n.legalEntity, n.legalName, n.registration, t.jurisdiction,
        t.instance,
            t.isolation, t.planDigest, t.environment, t.effectiveDate, c.accounting, c.markets, c.capabilities)
  }

  /** `request_from_state`: members it does not read are ignored, the optional ones default to empty. */
  function RequestFromState(j: Json): Read<Request> {
    if !j.Object? then Err(Unreadable)
    else
      var names :- ReadIdentity(j.members);
      var terms :- ReadPlacing(j.members);
      var composition :- ReadComposition(j.members);
      Ok(RequestOf(names, terms, composition))
  }

  /** SHA-256 of a tree's canonical text. */
  type Digest = Json -> string

  ghost predicate Faithful(digest: Digest) {
    && (forall a, b :: digest(a) == digest(b) ==> a == b)
    && (forall a :: digest(a) != "")
  }

  /** `verified_request`: the decoded request must reproduce the digest it was accepted under. */
  function VerifiedRequest(state: Json, accepted: Option<string>, digest: Digest, order: Iteration): Read<Request> {
    var request :- RequestFromState(state);
    if accepted.None? || accepted.value == "" || digest(DesiredState(request, order)) != accepted.value then Err(Drift)
    else Ok(request)
  }

  // ---------------------------------------------------------------------------------------------------------------
  // Round trip
  // ---------------------------------------------------------------------------------------------------------------

  lemma TextsRoundTrip(xs: seq<string>)
    ensures ReadTexts(Texts(xs)) == Ok(xs)
  {
    assert ReadTexts(Texts(xs)).value == xs;
  }

  lemma SetRoundTrip(s: set<string>, order: Iteration)
    requires Iterates(order)
    ensures ReadTexts(SetState(s, order)).Ok?
    ensures (set x | x in ReadTexts(SetState(s, order)).value) == s
  {
    var sorted := Sorted(order(s), Itself);
    TextsRoundTrip(sorted);
    assert Enumerates(order(s), s);
    forall x ensures x in sorted <==> x in s { SortedHasTheSame(order(s), Itself, x); }
  }

  lemma {:induction false} PairsRoundTrip(xs: seq<(string, string)>)
    ensures ReadPairs(Pairs(xs).items) == Ok(xs)
  {
    if xs != [] {
      var n := |xs| - 1;
      PairsRoundTrip(xs[..n]);
      assert Pairs(xs).items[..n] == Pairs(xs[..n]).items;
      TextsRoundTrip([xs[n].0, xs[n].1]);
      assert xs == xs[..n] + [(xs[n].0, xs[n].1)];
    }
  }

  lemma MarketRoundTrip(m: Market, order: Iteration)
    requires Iterates(order)
    ensures ReadMarket(MarketState(m, order)) == Ok(m)
  {
    SetRoundTrip(m.participation, order);
    TextsRoundTrip(m.currencies);
    TextsRoundTrip(m.warehouses);
    PairsRoundTrip(m.timezones);
  }

  lemma {:induction false} MarketsReadBack(states: seq<Json>, ms: seq<Market>)
    requires |states| == |ms|
    requires forall i :: 0 <= i < |ms| ==> ReadMarket(states[i]) == Ok(ms[i])
    ensures ReadMarkets(states) == Ok(ms)
  {
    if ms != [] {
      var n := |ms| - 1;
      MarketsReadBack(states[..n], ms[..n]);
      assert ms == ms[..n] + [ms[n]];
    }
  }

  lemma MarketsRoundTrip(ms: seq<Market>, order: Iteration)
    requires Iterates(order)
    ensures ReadMarkets(MarketStates(ms, order)) == Ok(ms)
  {
    var states := MarketStates(ms, order);
    forall i | 0 <= i < |ms| ensures ReadMarket(states[i]) == Ok(ms[i]) {
      MarketRoundTrip(ms[i], order);
    }
    MarketsReadBack(states, ms);
  }

  lemma AccountingRoundTrip(a: Accounting)
    ensures ReadAccounting(AccountingState(a)) == Ok(a)
  {
    InstantRoundTrip(a.approvedAt);
  }

  /** The members of an object read as this request's. */
  ghost predicate ReadsAs(state: map<Member, Json>, r: Request) {
    NamesRead(state, r) && TermsRead(state, r) && PartsRead(state, r)
  }

  ghost predicate NamesRead(state: map<Member, Json>, r: Request) {
    && GetText(state, PROVISIONING_ID) == Ok(r.provisioningId)
    && GetText(state, IDEMPOTENCY_KEY) == Ok(r.idempotencyKey)
    && GetText(state, TENANT_ID) == Ok(r.tenant)
    && GetText(state, LEGAL_ENTITY_ID) == Ok(r.legalEntity)
    && GetText(state, LEGAL_NAME) == Ok(r.legalName)
    && GetText(state, REGISTRATION_IDENTIFIER) == Ok(r.registration)
  }

  ghost predicate TermsRead(state: map<Member, Json>, r: Request) {
    && GetText(state, JURISDICTION_CODE) == Ok(r.jurisdiction)
    && GetText(state, ENGINE_INSTANCE_ID) == Ok(r.instance)
    && GetText(state, ISOLATION_REQUIREMENT) == Ok(r.isolation)
    && GetText(state, PLAN_DIGEST) == Ok(r.planDigest)
    && GetText(state, TARGET_ENVIRONMENT) == Ok(r.environment)
    && GetText(state, EFFECTIVE_DATE) == Ok(DateText(r.effectiveDate))
  }

  ghost predicate PartsRead(state: map<Member, Json>, r: Request) {
    && Get(state, ACCOUNTING) == Ok(AccountingState(r.accounting))
    && Get(state, MARKETS).Ok? && state[MARKETS].List? && ReadMarkets(state[MARKETS].items) == Ok(r.markets)
    && Get(state, REQUESTED_CAPABILITIES).Ok? && ReadTexts(state[REQUESTED_CAPABILITIES]).Ok?
    && (set x | x in ReadTexts(state[REQUESTED_CAPABILITIES]).value) == r.capabilities
  }

  lemma NamesReading(state: map<Member, Json>, r: Request)
    requires NamesRead(state, r)
    ensures ReadIdentity(state) == Ok(Identity(r.provisioningId, r.idempotencyKey, r.tenant, r.legalEntity, r.legalName,
        r.registration))
  {
  }

  lemma TermsReading(state: map<Member, Json>, r: Request)
    requires TermsRead(state, r)
    ensures ReadPlacing(state) == Ok(Placing(r.jurisdiction, r.instance, r.isolation, r.planDigest, r.environment,
        r.effectiveDate))
  {
    DateRoundTrip(r.effectiveDate);
  }

  lemma PartsReading(state: map<Member, Json>, r: Request)
    requires PartsRead(state, r)
    ensures ReadComposition(state) == Ok(Composition(r.accounting, r.markets, r.capabilities))
  {
    AccountingRoundTrip(r.accounting);
  }

  lemma ReadingAsIsReading(state: map<Member, Json>, r: Request)
    requires ReadsAs(state, r)
    ensures RequestFromState(Object(state)) == Ok(r)
  {
    NamesReading(state, r);
    TermsReading(state, r);
    PartsReading(state, r);
  }

  lemma NamesAreRead(r: Request, markets: seq<Json>, order: Iteration)
    ensures NamesRead(Members(r, markets, order), r)
  {
  }

  lemma TermsAreRead(r: Request, markets: seq<Json>, order: Iteration)
    ensures TermsRead(Members(r, markets, order), r)
  {
  }

  lemma PartsAreRead(r: Request, markets: seq<Json>, order: Iteration)
    requires ReadMarkets(markets) == Ok(r.markets)
    requires ReadTexts(SetState(r.capabilities, order)).Ok?
    requires (set x | x in ReadTexts(SetState(r.capabilities, order)).value) == r.capabilities
    ensures PartsRead(Members(r, markets, order), r)
  {
    var members := Members(r, markets, order);
    assert members[MARKETS] == List(markets);
    assert members[REQUESTED_CAPABILITIES] == SetState(r.capabilities, order);
  }

  /** Reading the serialised state gives the request back: sets, dates, and timezones left out where there are none. */
  lemma RoundTrip(r: Request, order: Iteration)
    requires Iterates(order)
    ensures RequestFromState(DesiredState(r, order)) == Ok(r)
  {
    MarketsRoundTrip(r.markets, order);
    SetRoundTrip(r.capabilities, order);
    var markets := MarketStates(r.markets, order);
    NamesAreRead(r, markets, order);
    TermsAreRead(r, markets, order);
    PartsAreRead(r, markets, order);
    ReadingAsIsReading(Members(r, markets, order), r);
  }

  /** Different requests never serialise alike, whatever order their sets were met in. */
  lemma SerialisationInjective(a: Request, b: Request, order: Iteration, other: Iteration)
    requires Iterates(order) && Iterates(other)
    requires DesiredState(a, order) == DesiredState(b, other)
    ensures a == b
  {
    RoundTrip(a, order);
    RoundTrip(b, other);
  }

  lemma SetStateForgetsOrder(s: set<string>, order: Iteration, other: Iteration)
    requires Iterates(order) && Iterates(other)
    ensures SetState(s, order) == SetState(s, other)
  {
    SortForgetsOrder(order(s), other(s), s);
  }

  /** The serialisation is a function of the request alone: the order its sets are met in leaves no trace. */
  lemma SerialisationForgetsOrder(r: Request, order: Iteration, other: Iteration)
    requires Iterates(order) && Iterates(other)
    ensures DesiredState(r, order) == DesiredState(r, other)
  {
    forall i | 0 <= i < |r.markets| ensures MarketState(r.markets[i], order) == MarketState(r.markets[i], other) {
      SetStateForgetsOrder(r.markets[i].participation, order, other);
    }
    assert MarketStates(r.markets, order) == MarketStates(r.markets, other);
    SetStateForgetsOrder(r.capabilities, order, other);
  }

  /** Whatever tree is stored, and however the reading process orders its sets: a verified request is the accepted one,
      and the accepted one is verified from every tree that reads as it. */
  lemma VerifiedIsAccepted(state: Json, accepted: Request, digest: Digest, order: Iteration, other: Iteration)
    requires Faithful(digest) && Iterates(order) && Iterates(other)
    ensures var under := Some(digest(DesiredState(accepted, order)));
            var verified := VerifiedRequest(state, under, digest, other);
            && (verified.Ok? ==> verified.value == accepted)
            && (verified.Ok? <==> RequestFromState(state) == Ok(accepted))
            && (RequestFromState(state).Ok? && RequestFromState(state).value != accepted ==> verified == Err(Drift))
            && VerifiedRequest(DesiredState(accepted, order), under, digest, other) == Ok(accepted)
  {
    SerialisationForgetsOrder(accepted, order, other);
    RoundTrip(accepted, order);
    var read := RequestFromState(state);
    if read.Ok? && digest(DesiredState(read.value, other)) == digest(DesiredState(accepted, order)) {
      SerialisationInjective(read.value, accepted, other, order);
    }
  }
}
