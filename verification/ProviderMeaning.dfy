/** What a provider of historical data answers, told from the observations as they were given
    (src/asm/backtest/provider.py): the last one at or before the clock, and a route priced from it. */
module ProviderMeaning {
  import opened Numeric
  import opened Domain
  import opened Sorting
  import opened History

  /** Observation i is at or before the clock and none such is later; of equally late ones the last given. */
  ghost predicate IsLatest(ps: seq<PricePoint>, now: Time, i: nat) {
    && i < |ps| && ps[i].at <= now
    && forall j :: 0 <= j < |ps| && ps[j].at <= now ==> ps[j].at < ps[i].at || (ps[j].at == ps[i].at && j <= i)
  }

  ghost predicate NoneYet(ps: seq<PricePoint>, now: Time) {
    forall i :: 0 <= i < |ps| ==> ps[i].at > now
  }

  lemma {:induction false} SeenMembers(ps: seq<PricePoint>, now: Time, p: PricePoint)
    requires p in Seen(ps, now)
    ensures p in ps && p.at <= now
  {
    if ps != [] {
      var n := |ps| - 1;
      if p in Seen(ps[..n], now) { SeenMembers(ps[..n], now, p); }
    }
  }

  lemma SortedMembers(ps: seq<PricePoint>, now: Time, p: PricePoint)
    requires p in Sort(Seen(ps, now), Moment)
    ensures p in ps && p.at <= now
  {
    SortKeeps(Seen(ps, now), Moment);
    Members(Sort(Seen(ps, now), Moment), Seen(ps, now), p);
    SeenMembers(ps, now, p);
  }

  lemma SeenNext(ps: seq<PricePoint>, now: Time, n: nat)
    requires |ps| == n + 1
    ensures Sort(Seen(ps, now), Moment)
         == if ps[n].at <= now then Insert(Sort(Seen(ps[..n], now), Moment), Moment, ps[n])
            else Sort(Seen(ps[..n], now), Moment)
  {
    if ps[n].at <= now { SortAppend(Seen(ps[..n], now), Moment, ps[n]); }
  }

  /** The latest so far goes to the end. */
  lemma NewestIsLast(ps: seq<PricePoint>, now: Time, n: nat)
    requires |ps| == n + 1 && IsLatest(ps, now, n)
    ensures var sorted := Sort(Seen(ps, now), Moment); sorted != [] && sorted[|sorted| - 1] == ps[n]
  {
    SeenNext(ps, now, n);
    var before := Sort(Seen(ps[..n], now), Moment);
    if before != [] {
      var last := before[|before| - 1];
      SortedMembers(ps[..n], now, last);
      var j :| 0 <= j < n && ps[..n][j] == last;
      assert ps[j] == last;
    }
  }

  lemma {:induction false} LatestIsLast(ps: seq<PricePoint>, now: Time, i: nat)
    requires IsLatest(ps, now, i)
    ensures var sorted := Sort(Seen(ps, now), Moment); sorted != [] && sorted[|sorted| - 1] == ps[i]
  {
    var n := |ps| - 1;
    if i == n {
      NewestIsLast(ps, now, n);
    } else {
      assert IsLatest(ps[..n], now, i);
      LatestIsLast(ps[..n], now, i);
      SeenNext(ps, now, n);
    }
  }

  lemma {:induction false} NothingSeen(ps: seq<PricePoint>, now: Time)
    requires NoneYet(ps, now)
    ensures Seen(ps, now) == []
  {
    if ps != [] { NothingSeen(ps[..|ps| - 1], now); }
  }

  /** A lookup in a loaded history. */
  lemma LookupIsLatest(ps: seq<PricePoint>, now: Time)
    ensures forall i: nat :: IsLatest(ps, now, i) ==> At(Sort(ps, Moment), now) == Some(ps[i])
    ensures NoneYet(ps, now) ==> At(Sort(ps, Moment), now) == None
  {
    LookupSeesPast(ps, now);
    forall i: nat | IsLatest(ps, now, i) ensures At(Sort(ps, Moment), now) == Some(ps[i]) { LatestIsLast(ps, now, i); }
    if NoneYet(ps, now) { NothingSeen(ps, now); }
  }

  // ---------------------------------------------------------------- market state

  /** Whole seconds since then, none before it. */
  predicate IsAge(age: int, created: Time, now: Time) {
    if now <= created then age == 0 else age * SECOND <= now - created < (age + 1) * SECOND
  }

  /** The state a token is in when `p` is its latest observation: p's own price and liquidity, the price in SOL too,
      and stale exactly when p is older than the limit. */
  ghost predicate Shows(s: MarketState, h: TokenHistory, p: PricePoint, setup: Setup, now: Time) {
    && s.priceUsd == p.priceUsd && s.liquidityUsd == p.liquidityUsd && s.fetchedAt == Some(p.at)
    && (s.stale <==> now > p.at + setup.maxStaleness)
    && (if setup.solPrice == 0.0 then s.price == 0.0 else s.price * setup.solPrice == p.priceUsd)
    && s.decimals == h.decimals && s.symbol == h.symbol && (s.tokenAgeSeconds.Some? <==> h.createdAt.Some?)
    && (h.createdAt.Some? ==> IsAge(s.tokenAgeSeconds.value, h.createdAt.value, now))
  }

  predicate ShowsNothing(s: MarketState) {
    s.stale && s.priceUsd == s.price == s.liquidityUsd == 0.0 && s.fetchedAt == None && s.tokenAgeSeconds == None
  }

  lemma ShownFrom(loaded: Histories, setup: Setup, now: Time, m: Mint, decimals: nat, p: PricePoint)
    requires m in loaded && At(loaded[m].points, now) == Some(p)
    ensures var s := StateAt(loaded, setup, now, m, decimals); s.mint == m && Shows(s, loaded[m], p, setup, now)
  {
    if loaded[m].createdAt.Some? { WholeSecondsMean(now - loaded[m].createdAt.value); }
    if setup.solPrice != 0.0 { assert p.priceUsd / setup.solPrice * setup.solPrice == p.priceUsd; }
  }

  lemma ShownAlike(s: MarketState, h: TokenHistory, k: TokenHistory, p: PricePoint, setup: Setup, now: Time)
    requires h.(points := []) == k.(points := []) && Shows(s, h, p, setup, now)
    ensures Shows(s, k, p, setup, now)
  {
  }

  /** The state of a token at a clock shows its latest observation, and nothing without one. */
  lemma StateMeans(hs: Histories, setup: Setup, now: Time, m: Mint, decimals: nat, i: nat)
    requires m in hs && IsLatest(hs[m].points, now, i)
    ensures var s := StateAt(LoadAll(hs), setup, now, m, decimals);
            s.mint == m && Shows(s, hs[m], hs[m].points[i], setup, now)
  {
    var p := hs[m].points[i];
    LatestIsLast(hs[m].points, now, i);
    LookupSeesPast(hs[m].points, now);
    ShownFrom(LoadAll(hs), setup, now, m, decimals, p);
    ShownAlike(StateAt(LoadAll(hs), setup, now, m, decimals), Load(hs[m]), hs[m], p, setup, now);
  }

  lemma UnseenMeans(hs: Histories, setup: Setup, now: Time, m: Mint, decimals: nat)
    requires m in hs ==> NoneYet(hs[m].points, now)
    ensures var s := StateAt(LoadAll(hs), setup, now, m, decimals);
            s.mint == m && ShowsNothing(s) && s.decimals == if m in hs then hs[m].decimals else decimals
  {
    if m in hs { LookupIsLatest(hs[m].points, now); }
  }

  lemma WholeSecondsMean(span: Time)
    ensures span >= 0 ==> WholeSeconds(span) * SECOND <= span < (WholeSeconds(span) + 1) * SECOND
    ensures span <= 0 ==> WholeSeconds(span) <= 0
  {
    var whole := span as real / SECOND as real;
    Quotient(span as real, SECOND as real);
    if span >= 0 {
      assert whole.Floor as real <= whole < whole.Floor as real + 1.0;
    } else {
      assert (-whole).Floor as real <= -whole;
    }
  }

  // ---------------------------------------------------------------- quotes

  lemma TruncMeans(x: real)
    ensures x >= 0.0 ==> Trunc(x) as real <= x < Trunc(x) as real + 1.0
    ensures x < 0.0 ==> Trunc(x) <= 0
  {
  }

  /** `out` whole units of a size, and no more fit. */
  predicate WholeUnits(out: int, unit: real, size: real) {
    out as real * unit <= size < (out + 1) as real * unit
  }

  lemma UnitsMean(size: real, unit: real, x: real)
    requires unit > 0.0 && x * unit == size && size >= 0.0
    ensures WholeUnits(Trunc(x), unit, size)
  {
    if x < 0.0 { MulLess(x, 0.0, unit); }
    TruncMeans(x);
    MulMono(unit, Trunc(x) as real, x);
    MulLess(x, (Trunc(x) + 1) as real, unit);
  }

  /** The price of one raw unit of the token when buying, and what an amount of it brings when selling, both
      worsened by the impact. */
  function BuyPrice(s: MarketState, impact: real): real { s.priceUsd * (1.0 + impact / 100.0) }

  function SellUsd(s: MarketState, impact: real, amount: nat): real {
    Ui(amount, s.decimals) * (s.priceUsd * (1.0 - impact / 100.0))
  }

  /** A whole unit fits exactly when the size is at least one. */
  lemma OneUnit(out: int, unit: real, size: real)
    requires unit > 0.0 && size >= 0.0 && WholeUnits(out, unit, size)
    ensures out >= 0 && (out <= 0 <==> size < unit)
  {
    var one := 1.0;
    if out < 0 { MulMono(unit, (out + 1) as real, 0.0); }
    if out == 0 { assert (out + 1) as real == one; }
    if out > 0 { MulMono(unit, one, out as real); }
    assert one * unit == unit;
  }

  lemma TimesUnit(x: real, unit: real, ten: real)
    requires unit > 0.0
    ensures x / unit * ten * unit == x * ten
  {
    Quotient(x, unit);
    var share := x / unit;
    assert share * ten * unit == share * unit * ten;
  }

  lemma UnitsForMean(usd: real, price: real, scale: real)
    requires usd >= 0.0 && scale > 0.0
    ensures var out := UnitsFor(usd, price, scale);
            && (out <= 0 <==> price <= 0.0 || usd * scale < price)
            && (out > 0 ==> WholeUnits(out, price, usd * scale))
  {
    if price > 0.0 { LamportsMean(usd, price, scale); }
  }

  lemma BoughtMeans(s: MarketState, usd: real, impact: real)
    requires usd >= 0.0
    ensures var price, out := BuyPrice(s, impact), Bought(s, usd, impact);
            && (out <= 0 <==> price <= 0.0 || usd * Pow10(s.decimals) < price)
            && (out > 0 ==> WholeUnits(out, price, usd * Pow10(s.decimals)))
  {
    assert BuyPrice(s, impact) == Dearer(s.priceUsd, impact);
    UnitsForMean(usd, Dearer(s.priceUsd, impact), Pow10(s.decimals));
  }

  lemma SoldMeans(s: MarketState, amount: nat, impact: real, sol: real)
    requires sol >= 0.0
    ensures var usd, out := SellUsd(s, impact, amount), SoldFor(s, amount, impact, sol);
            && (out <= 0 <==> sol == 0.0 || usd * Pow10(9) < sol)
            && (out > 0 ==> WholeUnits(out, sol, usd * Pow10(9)))
  {
    var usd := SellUsd(s, impact, amount);
    if sol > 0.0 { LamportsMean(usd, sol, Pow10(9)); }
  }

  lemma LamportsMean(usd: real, sol: real, ten: real)
    requires sol > 0.0 && ten > 0.0
    ensures Trunc(usd / sol * ten) <= 0 <==> usd * ten < sol
    ensures Trunc(usd / sol * ten) > 0 ==> WholeUnits(Trunc(usd / sol * ten), sol, usd * ten)
  {
    var x := usd / sol * ten;
    TimesUnit(usd, sol, ten);
    if usd >= 0.0 {
      MulOrder(0.0, usd, 0.0, ten);
      UnitsMean(usd * ten, sol, x);
      OneUnit(Trunc(x), sol, usd * ten);
    } else {
      MulLess(usd, 0.0, ten);
      if x >= 0.0 { MulMono(sol, 0.0, x); }
      TruncMeans(x);
    }
  }

  /** Buying with an amount of lamports: as many raw units as their value pays for at the worsened price, and no
      route exactly when the state is stale, has no price, or not even one unit is to be had. */
  lemma BuyRouteMeans(s: MarketState, setup: Setup, input: Mint, output: Mint, amount: nat, slippage: int)
    requires setup.solPrice >= 0.0
    ensures NotionalUsd(s, setup, true, amount) == Ui(amount, 9) * setup.solPrice
    ensures var usd := NotionalUsd(s, setup, true, amount);
            var impact := setup.impact(usd, s.liquidityUsd);
            var price := BuyPrice(s, impact);
            var route := Route(s, setup, true, input, output, amount, slippage);
            && (route == None <==> s.stale || s.priceUsd <= 0.0 || price <= 0.0 || usd * Pow10(s.decimals) < price)
            && (route.Some? ==>
                  && route.value.(outAmountRaw := 0) == Quote(input, output, amount, 0, impact, slippage)
                  && WholeUnits(route.value.outAmountRaw, price, usd * Pow10(s.decimals)))
  {
    var usd := NotionalUsd(s, setup, true, amount);
    QuotientOrder(amount as real, Pow10(9), Pow10(9));
    MulOrder(0.0, Ui(amount, 9), 0.0, setup.solPrice);
    BoughtMeans(s, usd, setup.impact(usd, s.liquidityUsd));
  }

  /** Selling raw units: as many lamports as they bring at the worsened price. */
  lemma SellRouteMeans(s: MarketState, setup: Setup, input: Mint, output: Mint, amount: nat, slippage: int)
    requires setup.solPrice >= 0.0
    ensures NotionalUsd(s, setup, false, amount) == Ui(amount, s.decimals) * s.priceUsd
    ensures var impact := setup.impact(NotionalUsd(s, setup, false, amount), s.liquidityUsd);
            var usd := SellUsd(s, impact, amount);
            var route := Route(s, setup, false, input, output, amount, slippage);
            && (route == None <==>
                  s.stale || s.priceUsd <= 0.0 || setup.solPrice == 0.0 || usd * Pow10(9) < setup.solPrice)
            && (route.Some? ==>
                  && route.value.(outAmountRaw := 0) == Quote(input, output, amount, 0, impact, slippage)
                  && WholeUnits(route.value.outAmountRaw, setup.solPrice, usd * Pow10(9)))
  {
    SoldMeans(s, amount, setup.impact(NotionalUsd(s, setup, false, amount), s.liquidityUsd), setup.solPrice);
  }

  lemma WorseBuy(s: MarketState, impact: real, out: int, size: real)
    requires s.priceUsd > 0.0 && impact >= 0.0 && out >= 0 && WholeUnits(out, BuyPrice(s, impact), size)
    ensures out as real * s.priceUsd <= size
  {
    MulMono(s.priceUsd, 1.0, 1.0 + impact / 100.0);
    MulMono(out as real, s.priceUsd, BuyPrice(s, impact));
  }

  lemma WorseSale(s: MarketState, impact: real, amount: nat, out: int, sol: real)
    requires s.priceUsd > 0.0 && impact >= 0.0 && WholeUnits(out, sol, SellUsd(s, impact, amount) * Pow10(9))
    ensures out as real * sol <= Ui(amount, s.decimals) * s.priceUsd * Pow10(9)
  {
    QuotientOrder(amount as real, Pow10(s.decimals), Pow10(s.decimals));
    MulMono(s.priceUsd, 1.0 - impact / 100.0, 1.0);
    MulMono(Ui(amount, s.decimals), s.priceUsd * (1.0 - impact / 100.0), s.priceUsd);
    MulMono(Pow10(9), SellUsd(s, impact, amount), Ui(amount, s.decimals) * s.priceUsd);
  }

  /** With an impact that is not negative nothing is bought for less than its price. */
  lemma BuysNotCheaper(s: MarketState, setup: Setup, input: Mint, output: Mint, amount: nat, slippage: int)
    requires setup.solPrice >= 0.0 && setup.impact(NotionalUsd(s, setup, true, amount), s.liquidityUsd) >= 0.0
    ensures var route := Route(s, setup, true, input, output, amount, slippage);
            route.Some? ==>
              route.value.outAmountRaw as real * s.priceUsd
              <= NotionalUsd(s, setup, true, amount) * Pow10(s.decimals)
  {
    var usd := NotionalUsd(s, setup, true, amount);
    var route := Route(s, setup, true, input, output, amount, slippage);
    BuyRouteMeans(s, setup, input, output, amount, slippage);
    if route.Some? {
      WorseBuy(s, setup.impact(usd, s.liquidityUsd), route.value.outAmountRaw, usd * Pow10(s.decimals));
    }
  }

  /** And nothing is sold for more. */
  lemma SalesNotDearer(s: MarketState, setup: Setup, input: Mint, output: Mint, amount: nat, slippage: int)
    requires setup.solPrice >= 0.0 && setup.impact(NotionalUsd(s, setup, false, amount), s.liquidityUsd) >= 0.0
    ensures var route := Route(s, setup, false, input, output, amount, slippage);
            route.Some? ==>
              route.value.outAmountRaw as real * setup.solPrice <= Ui(amount, s.decimals) * s.priceUsd * Pow10(9)
  {
    SellRouteMeans(s, setup, input, output, amount, slippage);
    var route := Route(s, setup, false, input, output, amount, slippage);
    if route.Some? {
      WorseSale(s, setup.impact(NotionalUsd(s, setup, false, amount), s.liquidityUsd), amount,
                route.value.outAmountRaw, setup.solPrice);
    }
  }

  /** A quote looks at the token bought, when it is known, and otherwise at the one sold. */
  lemma QuoteMeans(hs: Histories, setup: Setup, now: Time, input: Mint, output: Mint, amount: nat, slippage: int)
    ensures QuoteAt(hs, setup, now, input, output, amount, slippage)
         == if output in hs
            then Route(StateAt(hs, setup, now, output, 9), setup, true, input, output, amount, slippage)
            else Route(StateAt(hs, setup, now, input, 9), setup, false, input, output, amount, slippage)
  {
  }
}
