/**
 * Pricing: amounts in integer cents rounded half up, the route price of mobility, the liquidation of a quote
 * and its re-liquidation when the mobility amount is overridden.
 */
module Pricing {
  import opened Common

  datatype PricingError = Invalid | InvalidState | AdvanceChanged

  // ---------------------------------------------------------------- rounding

  /** The nearest integer; a tie goes away from zero. */
  function HalfUp(x: real): (r: int)
    ensures -0.5 <= r as real - x <= 0.5
    ensures r as real - x == 0.5 ==> x >= 0.0
    ensures r as real - x == -0.5 ==> x < 0.0
  {
    if x >= 0.0 then (x + 0.5).Floor else -((-x + 0.5).Floor)
  }

  lemma HalfUpIsMonotone(x: real, y: real)
    requires x <= y
    ensures HalfUp(x) <= HalfUp(y)
  {
    var hx, hy := HalfUp(x), HalfUp(y);
    assert hx > hy ==> hx as real >= hy as real + 1.0;
  }

  lemma HalfUpKeepsIntegers(n: int)
    ensures HalfUp(n as real) == n
  {
  }

  // ---------------------------------------------------------------- mobility

  datatype Tariff = Tariff(perKm: nat, perMinute: nat, minimum: nat, margin: real, zones: (nat, nat, nat))

  datatype Zone = Zone1 | Zone2 | Zone3

  /** A round trip: hundredths of a kilometre and minutes. */
  datatype Route = Route(distance: nat, minutes: nat)

  const MAX_DISTANCE := 999999

  /** An estimate in kilometres, quantised; `None` is rejected. */
  function Estimate(kilometres: real, minutes: int): Option<Route> {
    var distance := HalfUp(kilometres * 100.0);
    if distance < 0 || minutes < 0 || distance > MAX_DISTANCE then None else Some(Route(distance, minutes))
  }

  /** An estimate is rejected exactly when a distance or a duration is negative or the distance is beyond the largest
      that can be stored, once rounded; otherwise the distance is the nearest hundredth of a kilometre. */
  lemma EstimatesAreQuantised(kilometres: real, minutes: int)
    ensures Estimate(kilometres, minutes).Some? <==>
              minutes >= 0 && -0.5 < kilometres * 100.0 < MAX_DISTANCE as real + 0.5
    ensures Estimate(kilometres, minutes).Some? ==>
              var route := Estimate(kilometres, minutes).value;
              route.minutes == minutes && -0.5 <= route.distance as real - kilometres * 100.0 <= 0.5
  {
    var hundredths := kilometres * 100.0;
    assert hundredths >= MAX_DISTANCE as real + 0.5 ==> HalfUp(hundredths) > MAX_DISTANCE;
  }

  datatype Mobility = Exempt | ByRoute(route: Route, base: int, final: int) | Contingency(base: int, final: int)

  function RawPrice(t: Tariff, route: Route): real {
    (t.perKm * route.distance) as real / 100.0 + (t.perMinute * route.minutes) as real
  }

  function Factor(t: Tariff): real {
    (100.0 + t.margin) / 100.0
  }

  function Base(t: Tariff, route: Route): int {
    Max(HalfUp(RawPrice(t, route)), t.minimum)
  }

  /** Products over a common factor, kept as a function so that their algebra stays in the lemmas below. */
  function Times(x: real, f: real): real {
    x * f
  }

  function WithMargin(base: int, factor: real): int {
    HalfUp(Times(base as real, factor))
  }

  function ByRoutePrice(t: Tariff, route: Route): Mobility {
    ByRoute(route, Base(t, route), WithMargin(Base(t, route), Factor(t)))
  }

  function ResolveMobility(t: Tariff, clientProvides: bool, route: Option<Route>, zone: Zone): Mobility {
    if clientProvides then Exempt
    else if route.Some? then ByRoutePrice(t, route.value)
    else
      var amount := match zone case Zone1 => t.zones.0 case Zone2 => t.zones.1 case Zone3 => t.zones.2;
      Contingency(amount, amount)
  }

  function UnroundedBase(t: Tariff, route: Route): real {
    var raw := t.perKm as real * (route.distance as real / 100.0) + t.perMinute as real * route.minutes as real;
    if raw >= t.minimum as real then raw else t.minimum as real
  }

  /** The documented formula in kilometres and minutes, with the margin as a percentage, before any rounding. */
  function Unrounded(t: Tariff, route: Route): real {
    Times(UnroundedBase(t, route), 1.0 + t.margin / 100.0)
  }

  function Abs(x: real): real {
    if x >= 0.0 then x else -x
  }

  lemma Scaled(x: real, y: real, f: real)
    requires f >= 0.0 && x <= y
    ensures Times(x, f) <= Times(y, f)
  {
  }

  lemma ProductOfCasts(k: nat, x: nat)
    ensures (k * x) as real == k as real * x as real
    ensures k as real * (x as real / 100.0) == (k * x) as real / 100.0
  {
  }

  lemma RawPriceIsTheFormula(t: Tariff, route: Route)
    ensures RawPrice(t, route) == t.perKm as real * (route.distance as real / 100.0)
                                  + t.perMinute as real * route.minutes as real
  {
    ProductOfCasts(t.perKm, route.distance);
    ProductOfCasts(t.perMinute, route.minutes);
  }

  lemma RoundedOrMinimumIsClose(raw: real, minimum: nat)
    ensures Abs(Max(HalfUp(raw), minimum) as real - (if raw >= minimum as real then raw else minimum as real)) <= 0.5
  {
    HalfUpKeepsIntegers(minimum);
    if raw >= minimum as real {
      HalfUpIsMonotone(minimum as real, raw);
    } else {
      HalfUpIsMonotone(raw, minimum as real);
    }
  }

  lemma BaseIsClose(t: Tariff, route: Route)
    ensures Abs(Base(t, route) as real - UnroundedBase(t, route)) <= 0.5
  {
    RawPriceIsTheFormula(t, route);
    RoundedOrMinimumIsClose(RawPrice(t, route), t.minimum);
  }

  lemma TimesOfADifference(x: real, y: real, f: real)
    ensures Times(x, f) - Times(y, f) == Times(x - y, f)
  {
  }

  lemma TimesOfAnError(d: real, f: real)
    requires f >= 0.0 && -0.5 <= d <= 0.5
    ensures -(0.5 * f) <= Times(d, f) <= 0.5 * f
  {
    Scaled(d, 0.5, f);
    Scaled(-0.5, d, f);
    assert Times(0.5, f) == 0.5 * f && Times(-0.5, f) == -(0.5 * f);
  }

  lemma TimesAreClose(x: real, y: real, f: real)
    requires f >= 0.0 && Abs(x - y) <= 0.5
    ensures Abs(Times(x, f) - Times(y, f)) <= 0.5 * f
  {
    TimesOfADifference(x, y, f);
    TimesOfAnError(x - y, f);
  }

  lemma ErrorsAdd(rounded: int, p: real, q: real, error: real)
    requires rounded == HalfUp(p) && Abs(p - q) <= error
    ensures Abs(rounded as real - q) <= error + 0.5
  {
  }

  lemma MarginIsClose(base: int, exact: real, factor: real)
    requires factor >= 0.0 && Abs(base as real - exact) <= 0.5
    ensures Abs(WithMargin(base, factor) as real - Times(exact, factor)) <= 0.5 * factor + 0.5
  {
    TimesAreClose(base as real, exact, factor);
    ErrorsAdd(WithMargin(base, factor), Times(base as real, factor), Times(exact, factor), 0.5 * factor);
  }

  /** Rounding twice stays within half a cent per rounding, the first one scaled by the margin. */
  lemma MobilityIsCloseToTheFormula(t: Tariff, route: Route)
    requires t.margin >= 0.0
    ensures Abs(ByRoutePrice(t, route).final as real - Unrounded(t, route)) <= 1.0 + t.margin / 200.0
  {
    BaseIsClose(t, route);
    assert Factor(t) == 1.0 + t.margin / 100.0;
    MarginIsClose(Base(t, route), UnroundedBase(t, route), Factor(t));
  }

  lemma MulOrdered(k: nat, x: nat, y: nat)
    requires x <= y
    ensures k * x <= k * y
  {
  }

  lemma BaseIsMonotone(t: Tariff, shorter: Route, longer: Route)
    requires shorter.distance <= longer.distance && shorter.minutes <= longer.minutes
    ensures t.minimum <= Base(t, shorter) <= Base(t, longer)
  {
    MulOrdered(t.perKm, shorter.distance, longer.distance);
    MulOrdered(t.perMinute, shorter.minutes, longer.minutes);
    HalfUpIsMonotone(RawPrice(t, shorter), RawPrice(t, longer));
  }

  lemma ScaledUp(x: real, f: real)
    requires x >= 0.0 && f >= 1.0
    ensures x <= Times(x, f)
  {
    Scaled(1.0, f, x);
    assert Times(1.0, x) == x && Times(f, x) == Times(x, f);
  }

  lemma MarginNeverLowers(base: int, factor: real)
    requires 0 <= base && factor >= 1.0
    ensures base <= WithMargin(base, factor)
  {
    ScaledUp(base as real, factor);
    HalfUpKeepsIntegers(base);
    HalfUpIsMonotone(base as real, Times(base as real, factor));
  }

  lemma MarginsAreMonotone(low: int, high: int, factor: real)
    requires low <= high && factor >= 1.0
    ensures WithMargin(low, factor) <= WithMargin(high, factor)
  {
    Scaled(low as real, high as real, factor);
    HalfUpIsMonotone(Times(low as real, factor), Times(high as real, factor));
  }

  /** A longer or slower route is never cheaper, and no route costs less than the minimum. */
  lemma MobilityIsMonotone(t: Tariff, shorter: Route, longer: Route)
    requires t.margin >= 0.0
    requires shorter.distance <= longer.distance && shorter.minutes <= longer.minutes
    ensures ByRoutePrice(t, shorter).final <= ByRoutePrice(t, longer).final
    ensures t.minimum <= ByRoutePrice(t, shorter).base <= ByRoutePrice(t, shorter).final
  {
    BaseIsMonotone(t, shorter, longer);
    MarginsAreMonotone(Base(t, shorter), Base(t, longer), Factor(t));
    MarginNeverLowers(Base(t, shorter), Factor(t));
  }

  // ---------------------------------------------------------------- liquidation

  datatype Extra = Extra(unit: int, quantity: int)

  datatype Liquidation = Liquidation(
    services: int, mobility: int, total: int, advance: int, pending: int, balanceServices: int, balanceMobility: int)

  predicate ValidExtras(extras: seq<Extra>) {
    forall i :: 0 <= i < |extras| ==> extras[i].unit >= 0 && extras[i].quantity > 0
  }

  function ExtrasTotal(extras: seq<Extra>): int {
    if extras == [] then 0
    else ExtrasTotal(extras[..|extras| - 1]) + extras[|extras| - 1].unit * extras[|extras| - 1].quantity
  }

  lemma {:induction false} ExtrasCostNothingNegative(extras: seq<Extra>)
    requires ValidExtras(extras)
    ensures ExtrasTotal(extras) >= 0
  {
    if extras != [] {
      ExtrasCostNothingNegative(extras[..|extras| - 1]);
    }
  }

  /** The percentage of the services, in cents before rounding. */
  function Exact(services: int, percent: int): real {
    (services * percent) as real / 100.0
  }

  function Share(services: int, percent: int): int {
    HalfUp(Exact(services, percent))
  }

  function Liquidate(percent: int, package: int, extras: seq<Extra>, mobility: int): Result<Liquidation, PricingError> {
    if package <= 0 || mobility < 0 || !ValidExtras(extras) then Failure(Invalid)
    else
      var services := package + ExtrasTotal(extras);
      var advance := Share(services, percent);
      Success(Liquidation(services, mobility, services + mobility, advance, services + mobility - advance,
                          services - advance, mobility))
  }

  /** An extra costs its unit price times its quantity, wherever it stands among the others. */
  lemma {:induction false} EachExtraCostsItsPrice(before: seq<Extra>, x: Extra, after: seq<Extra>)
    ensures ExtrasTotal([]) == 0
    ensures ExtrasTotal(before + [x] + after) == ExtrasTotal(before + after) + x.unit * x.quantity
  {
    var all := before + [x] + after;
    if after == [] {
      assert all[..|all| - 1] == before && before + after == before;
    } else {
      var shorter, last := after[..|after| - 1], after[|after| - 1];
      EachExtraCostsItsPrice(before, x, shorter);
      assert all[..|all| - 1] == before + [x] + shorter;
      assert (before + after)[..|before + after| - 1] == before + shorter;
    }
  }

  lemma AdvanceIsAShare(services: int, percent: int)
    requires services >= 0 && 0 < percent <= 100
    ensures 0 <= Share(services, percent) <= services
    ensures -50 < 100 * Share(services, percent) - services * percent <= 50
  {
    assert Exact(services, percent) * 100.0 == (services * percent) as real;
    MulOrdered(services, 0, percent);
    MulOrdered(services, percent, 100);
    HalfUpIsMonotone(0.0, Exact(services, percent));
    HalfUpIsMonotone(Exact(services, percent), services as real);
    HalfUpKeepsIntegers(services);
  }

  /** Every liquidation is of the package with its extras and of the mobility asked for; it splits its total exactly
      into an advance on the services and two balances, and the mobility is all in the balance. Only a package without
      a price, a negative mobility or an extra with a negative price or without units is refused. */
  lemma LiquidationsBalance(percent: int, package: int, extras: seq<Extra>, mobility: int)
    requires 0 < percent <= 100
    ensures Liquidate(percent, package, extras, mobility).Success? <==>
              package > 0 && mobility >= 0 && forall x :: x in extras ==> x.unit >= 0 && x.quantity > 0
    ensures Liquidate(percent, package, extras, mobility).Success? ==>
      var l := Liquidate(percent, package, extras, mobility).value;
      && l.services == package + ExtrasTotal(extras) >= package > 0
      && l.mobility == l.balanceMobility == mobility && l.total == l.services + mobility
      && l.advance + l.pending == l.total && l.balanceServices + l.balanceMobility == l.pending
      && 0 <= l.advance <= l.services && l.balanceServices >= 0 && l.pending >= l.mobility
      && -50 < 100 * l.advance - l.services * percent <= 50
  {
    assert ValidExtras(extras) <==> forall x :: x in extras ==> x.unit >= 0 && x.quantity > 0;
    if Liquidate(percent, package, extras, mobility).Success? {
      ExtrasCostNothingNegative(extras);
      AdvanceIsAShare(package + ExtrasTotal(extras), percent);
    }
  }

  method RunLiquidate(percent: int, package: int, extras: seq<Extra>, mobility: int)
    returns (r: Result<Liquidation, PricingError>)
    requires 0 < percent <= 100
    ensures r == Liquidate(percent, package, extras, mobility)
  {
    if !ValidExtras(extras) { return Failure(Invalid); }
    if package <= 0 || mobility < 0 { return Failure(Invalid); }
    var services := package;
    for i := 0 to |extras|
      invariant services == package + ExtrasTotal(extras[..i])
    {
      assert extras[..i + 1][..i] == extras[..i];
      services := services + extras[i].unit * extras[i].quantity;
    }
    assert extras[..|extras|] == extras;
    var advance := HalfUp((services * percent) as real / 100.0);
    var total := services + mobility;
    r := Success(Liquidation(services, mobility, total, advance, total - advance, services - advance, mobility));
  }

  /** Trips estimated longer and slower are never cheaper, quantised as they are. */
  lemma EstimatesKeepTheOrder(t: Tariff, near: real, far: real, quick: int, slow: int)
    requires t.margin >= 0.0 && near <= far && quick <= slow
    requires Estimate(near, quick).Some? && Estimate(far, slow).Some?
    ensures ByRoutePrice(t, Estimate(near, quick).value).final <= ByRoutePrice(t, Estimate(far, slow).value).final
  {
    HalfUpIsMonotone(near * 100.0, far * 100.0);
    MobilityIsMonotone(t, Estimate(near, quick).value, Estimate(far, slow).value);
  }

  function FinalAmount(m: Mobility): int {
    if m.Exempt? then 0 else m.final
  }

  /** Whatever the scenario, the mobility resolved is a valid amount to liquidate with: nothing for a client who
      provides it, otherwise never below what it was based on. */
  lemma ResolvedMobilityLiquidates(t: Tariff, clientProvides: bool, route: Option<Route>, zone: Zone,
                                   percent: int, package: int, extras: seq<Extra>)
    requires t.margin >= 0.0 && package > 0 && ValidExtras(extras)
    ensures var m := ResolveMobility(t, clientProvides, route, zone);
      && Liquidate(percent, package, extras, FinalAmount(m)).Success?
      && (m.Exempt? <==> clientProvides) && (clientProvides ==> FinalAmount(m) == 0)
      && (!clientProvides && route.Some? ==>
            m.ByRoute? && m.route == route.value && t.minimum <= m.base <= m.final == FinalAmount(m)
            && Abs(m.final as real - Unrounded(t, route.value)) <= 1.0 + t.margin / 200.0)
      && (!clientProvides && route.None? ==>
            m.Contingency? && m.base == m.final == FinalAmount(m)
            && (zone.Zone1? ==> m.final == t.zones.0) && (zone.Zone2? ==> m.final == t.zones.1)
            && (zone.Zone3? ==> m.final == t.zones.2))
  {
    if !clientProvides && route.Some? {
      MobilityIsMonotone(t, route.value, route.value);
      MobilityIsCloseToTheFormula(t, route.value);
    }
  }

  // ---------------------------------------------------------------- overriding the mobility

  datatype Line = Line(charge: Extra, subtotal: int)

  datatype Quote = Quote(open: bool, lines: seq<Line>, liquidation: Liquidation)

  function Charges(lines: seq<Line>): seq<Extra> {
    seq(|lines|, i requires 0 <= i < |lines| => lines[i].charge)
  }

  function Subtotals(lines: seq<Line>): int {
    if lines == [] then 0 else Subtotals(lines[..|lines| - 1]) + lines[|lines| - 1].subtotal
  }

  /** The package price is what the stored lines leave of the services; the amount is rounded to cents. */
  function OverrideMobility(percent: int, q: Quote, amount: real, reasonGiven: bool): Result<Quote, PricingError> {
    match Liquidate(percent, q.liquidation.services - Subtotals(q.lines), Charges(q.lines), HalfUp(amount))
    case Failure(e) => Failure(e)
    case Success(l) =>
      if !q.open then Failure(InvalidState)
      else if !reasonGiven then Failure(Invalid)
      else if l.advance != q.liquidation.advance then Failure(AdvanceChanged)
      else Success(q.(liquidation := l))
  }

  predicate LinesPriced(lines: seq<Line>) {
    && ValidExtras(Charges(lines))
    && forall i :: 0 <= i < |lines| ==> lines[i].subtotal == lines[i].charge.unit * lines[i].charge.quantity
  }

  /** The quote was priced by the engine at this percentage, for this package price. */
  predicate PricedBy(percent: int, package: int, q: Quote) {
    LinesPriced(q.lines)
    && Liquidate(percent, package, Charges(q.lines), q.liquidation.mobility) == Success(q.liquidation)
  }

  lemma {:induction false} SubtotalsAreTheExtras(lines: seq<Line>)
    requires LinesPriced(lines)
    ensures Subtotals(lines) == ExtrasTotal(Charges(lines))
  {
    if lines != [] {
      var shorter := lines[..|lines| - 1];
      assert Charges(lines)[..|lines| - 1] == Charges(shorter);
      assert forall i :: 0 <= i < |shorter| ==> Charges(shorter)[i] == Charges(lines)[i];
      SubtotalsAreTheExtras(shorter);
    }
  }

  /** One override of an engine-priced quote is a fresh liquidation with the new amount, whatever came before.
      The guard on the advance trips exactly when the percentage in force now rounds to another advance. */
  lemma OverridingReliquidates(percent: int, package: int, q: Quote, now: int, amount: real)
    requires 0 < percent <= 100 && 0 < now <= 100 && PricedBy(percent, package, q) && q.open && HalfUp(amount) >= 0
    ensures OverrideMobility(now, q, amount, true) == Failure(AdvanceChanged)
            <==> Share(q.liquidation.services, now) != Share(q.liquidation.services, percent)
    ensures now == percent ==>
              && OverrideMobility(now, q, amount, true).Success?
              && OverrideMobility(now, q, amount, true).value.lines == q.lines
              && OverrideMobility(now, q, amount, true).value.open
              && Liquidate(percent, package, Charges(q.lines), HalfUp(amount))
                 == Success(OverrideMobility(now, q, amount, true).value.liquidation)
              && PricedBy(percent, package, OverrideMobility(now, q, amount, true).value)
  {
    SubtotalsAreTheExtras(q.lines);
  }

  /** An override is accepted exactly for an open quote, with a reason, an amount that does not round below zero, and a
      percentage in force that still gives the advance already asked for. */
  lemma OverridesExactlyWhen(percent: int, package: int, q: Quote, now: int, amount: real, reasonGiven: bool)
    requires 0 < percent <= 100 && 0 < now <= 100 && PricedBy(percent, package, q)
    ensures OverrideMobility(now, q, amount, reasonGiven).Success? <==>
              && q.open && reasonGiven && amount > -0.5
              && HalfUp(Exact(q.liquidation.services, now)) == q.liquidation.advance
  {
    SubtotalsAreTheExtras(q.lines);
    LiquidationsBalance(percent, package, Charges(q.lines), q.liquidation.mobility);
    LiquidationsBalance(now, package, Charges(q.lines), HalfUp(amount));
  }

  /** The quote after overriding with each amount in turn, while every override is accepted. */
  function OverrideAll(percent: int, q: Quote, amounts: seq<real>): Result<Quote, PricingError> {
    if amounts == [] then Success(q)
    else
      match OverrideAll(percent, q, amounts[..|amounts| - 1])
      case Failure(e) => Failure(e)
      case Success(before) => OverrideMobility(percent, before, amounts[|amounts| - 1], true)
  }

  ghost predicate NoneNegative(amounts: seq<real>) {
    forall i :: 0 <= i < |amounts| ==> HalfUp(amounts[i]) >= 0
  }

  /** Any number of overrides leaves services and advance as they were, never trips the guard, and ends with
      the liquidation that pricing afresh with the last amount would give. */
  lemma {:induction false} OverridesKeepTheAdvance(percent: int, package: int, q: Quote, amounts: seq<real>)
    requires 0 < percent <= 100 && PricedBy(percent, package, q) && q.open && NoneNegative(amounts)
    ensures OverrideAll(percent, q, amounts).Success?
    ensures var r := OverrideAll(percent, q, amounts).value;
      && PricedBy(percent, package, r) && r.open && r.lines == q.lines
      && r.liquidation.services == q.liquidation.services && r.liquidation.advance == q.liquidation.advance
      && (amounts != [] ==> Liquidate(percent, package, Charges(q.lines),
          HalfUp(amounts[|amounts| - 1])) == Success(r.liquidation))
      && r.liquidation.mobility == (if amounts == [] then q.liquidation.mobility else HalfUp(amounts[|amounts| - 1]))
      && r.liquidation.total - q.liquidation.total == r.liquidation.mobility - q.liquidation.mobility
      && r.liquidation.pending - q.liquidation.pending == r.liquidation.mobility - q.liquidation.mobility
      && r.liquidation.balanceServices == q.liquidation.balanceServices
      && 0 <= r.liquidation.advance <= r.liquidation.services
      && -50 < 100 * r.liquidation.advance - r.liquidation.services * percent <= 50
  {
    if amounts != [] {
      var shorter := amounts[..|amounts| - 1];
      OverridesKeepTheAdvance(percent, package, q, shorter);
      OverridingReliquidates(percent, package, OverrideAll(percent, q, shorter).value, percent, amounts[|amounts| - 1]);
    }
    LiquidationsBalance(percent, package, Charges(q.lines), q.liquidation.mobility);
    LiquidationsBalance(percent, package, Charges(q.lines), OverrideAll(percent, q,
        amounts).value.liquidation.mobility);
  }

  class PricedQuote {
    const open: bool
    const lines: seq<Line>
    var liquidation: Liquidation

    function Value(): Quote
      reads this
    {
      Quote(open, lines, liquidation)
    }

    constructor (q: Quote)
      ensures Value() == q
    {
      open, lines, liquidation := q.open, q.lines, q.liquidation;
    }

    method RunOverride(percent: int, amount: real, reasonGiven: bool) returns (error: Option<PricingError>)
      requires 0 < percent <= 100
      modifies this
      ensures match OverrideMobility(percent, old(Value()), amount, reasonGiven)
              case Success(q) => error == None && Value() == q
              case Failure(e) => error == Some(e) && Value() == old(Value())
    {
      var extrasTotal := 0;
      for i := 0 to |lines|
        invariant extrasTotal == Subtotals(lines[..i])
      {
        assert lines[..i + 1][..i] == lines[..i];
        extrasTotal := extrasTotal + lines[i].subtotal;
      }
      assert lines[..|lines|] == lines;
      var renewed := RunLiquidate(percent, liquidation.services - extrasTotal, Charges(lines), HalfUp(amount));
      if renewed.Failure? { return Some(renewed.error); }
      if !open { return Some(InvalidState); }
      if !reasonGiven { return Some(Invalid); }
      if renewed.value.advance != liquidation.advance { return Some(AdvanceChanged); }
      liquidation := renewed.value;
      error := None;
    }
  }
}
