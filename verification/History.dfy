/** The backtester's view of the market (src/asm/backtest/provider.py): token histories replayed
    against a simulated clock. Nothing later than the clock can influence an answer. */
module History {
  import opened Numeric
  import opened Domain
  import opened Sorting

  datatype PricePoint = PricePoint(at: Time, priceUsd: real, liquidityUsd: real)

  datatype TokenHistory = TokenHistory(points: seq<PricePoint>, decimals: nat, createdAt: Option<Time>,
                                       riskScore: int, symbol: Option<string>)

  function Moment(p: PricePoint): Time { p.at }

  /** The constructor of a history sorts its points by time. */
  function Load(h: TokenHistory): TokenHistory { h.(points := Sort(h.points, Moment)) }

  /** bisect_right over the times: how many points a search from the right leaves. */
  function BisectRight(ps: seq<PricePoint>, when: Time): nat {
    if ps == [] || ps[|ps| - 1].at <= when then |ps| else BisectRight(ps[..|ps| - 1], when)
  }

  function At(ps: seq<PricePoint>, when: Time): Option<PricePoint> {
    var idx := BisectRight(ps, when);
    BisectBound(ps, when);
    if idx == 0 then None else Some(ps[idx - 1])
  }

  lemma {:induction false} BisectBound(ps: seq<PricePoint>, when: Time)
    ensures BisectRight(ps, when) <= |ps|
  {
    if ps != [] && ps[|ps| - 1].at > when { BisectBound(ps[..|ps| - 1], when); }
  }

  /** The last observation at or before `when`, if there is one. */
  lemma {:induction false} AtIsLastObservation(ps: seq<PricePoint>, when: Time)
    requires Ordered(ps, Moment)
    ensures var idx := BisectRight(ps, when);
            idx <= |ps| && (forall i :: 0 <= i < idx ==> ps[i].at <= when)
            && (forall i :: idx <= i < |ps| ==> ps[i].at > when)
            && At(ps, when) == if idx == 0 then None else Some(ps[idx - 1])
  {
    BisectBound(ps, when);
    if ps != [] && ps[|ps| - 1].at > when { AtIsLastObservation(ps[..|ps| - 1], when); }
  }

  // ---------------------------------------------------------------- what can be seen

  /** The points up to `t`, in the order given. */
  function Seen(ps: seq<PricePoint>, t: Time): seq<PricePoint> { Upto(ps, Moment, t) }

  /** Looking up a sorted history only looks at what is seen by then. */
  lemma {:induction false} AtOfSeen(ps: seq<PricePoint>, when: Time)
    requires Ordered(ps, Moment)
    ensures var seen := Seen(ps, when);
            At(ps, when) == if seen == [] then None else Some(seen[|seen| - 1])
  {
    BisectBound(ps, when);
    if ps != [] {
      var n := |ps| - 1;
      if ps[n].at > when {
        AtOfSeen(ps[..n], when);
        BisectBound(ps[..n], when);
      }
    }
  }

  // ---------------------------------------------------------------- the provider

  type Histories = map<Mint, TokenHistory>

  datatype MarketState = MarketState(
    mint: Mint, price: real, priceUsd: real, liquidityUsd: real, decimals: nat,
    symbol: Option<string>, tokenAgeSeconds: Option<int>, fetchedAt: Option<Time>, stale: bool)

  datatype Quote = Quote(inputMint: Mint, outputMint: Mint, inAmountRaw: nat, outAmountRaw: int,
                         priceImpactPct: real, slippageBps: int)

  /** Settings of a provider; the impact model is any function of size and liquidity. */
  datatype Setup = Setup(solPrice: real, maxStaleness: Time, impact: (real, real) -> real)

  function Unknown(mint: Mint, decimals: nat): MarketState {
    MarketState(mint, 0.0, 0.0, 0.0, decimals, None, None, None, true)
  }

  function InSol(usd: real, sol: real): real { if sol == 0.0 then 0.0 else usd / sol }

  function StateAt(hs: Histories, setup: Setup, now: Time, mint: Mint, decimals: nat): MarketState {
    if mint !in hs then Unknown(mint, decimals)
    else
      var h := hs[mint];
      match At(h.points, now)
      case None => Unknown(mint, h.decimals)
      case Some(point) =>
        var age := match h.createdAt
          case None => None
          case Some(created) =>
            var seconds := WholeSeconds(now - created);
            Some(if seconds < 0 then 0 else seconds);
        MarketState(mint, InSol(point.priceUsd, setup.solPrice), point.priceUsd, point.liquidityUsd,
                    h.decimals, h.symbol, age, Some(point.at), now - point.at > setup.maxStaleness)
  }

  /** Whether answering about a mint at that clock is counted as a miss. */
  function Miss(hs: Histories, now: Time, mint: Mint): nat {
    if mint !in hs || At(hs[mint].points, now) == None then 1 else 0
  }

  /** A buyer's price. */
  function Dearer(priceUsd: real, impact: real): real { priceUsd * (1.0 + impact / 100.0) }

  /** Tokens received for `inUsd`, at a price worsened by the impact. */
  function Bought(state: MarketState, inUsd: real, impact: real): int {
    UnitsFor(inUsd, Dearer(state.priceUsd, impact), Pow10(state.decimals))
  }

  /** Lamports received for a number of tokens. */
  function SoldFor(state: MarketState, amount: nat, impact: real, sol: real): int {
    var effective := state.priceUsd * (1.0 - impact / 100.0);
    var outUsd := Ui(amount, state.decimals) * effective;
    if sol == 0.0 then 0 else Trunc(outUsd / sol * Pow10(9))
  }

  function NotionalUsd(state: MarketState, setup: Setup, buying: bool, amount: nat): real {
    if buying then Ui(amount, 9) * setup.solPrice else Ui(amount, state.decimals) * state.priceUsd
  }

  /** The route synthesised from a market state. */
  function Route(state: MarketState, setup: Setup, buying: bool, input: Mint, output: Mint, amount: nat, slippage: int)
    : Option<Quote>
  {
    if state.stale || state.priceUsd <= 0.0 then None
    else
      var inUsd := NotionalUsd(state, setup, buying, amount);
      var impact := setup.impact(inUsd, state.liquidityUsd);
      var outRaw := if buying then Bought(state, inUsd, impact) else SoldFor(state, amount, impact, setup.solPrice);
      if outRaw <= 0 then None else Some(Quote(input, output, amount, outRaw, impact, slippage))
  }

  function QuoteAt(hs: Histories, setup: Setup, now: Time, input: Mint, output: Mint, amount: nat, slippage: int)
    : Option<Quote>
  {
    var buying := output in hs;
    Route(StateAt(hs, setup, now, if buying then output else input, 9), setup, buying, input, output, amount, slippage)
  }

  class HistoricalDataProvider {
    const histories: Histories
    const setup: Setup
    var now: Time
    var misses: nat

    constructor (raw: Histories, settings: Setup, started: Time)
      ensures histories == (map m | m in raw :: Load(raw[m])) && setup == settings
      ensures now == started && misses == 0
    {
      histories := map m | m in raw :: Load(raw[m]);
      setup, now, misses := settings, started, 0;
    }

    method SetClock(when: Time)
      modifies this`now
      ensures now == when
    {
      now := when;
    }

    method GetMarketState(mint: Mint, decimals: nat) returns (state: MarketState)
      modifies this`misses
      ensures state == StateAt(histories, setup, now, mint, decimals)
      ensures misses == old(misses) + Miss(histories, now, mint)
    {
      if mint !in histories {
        misses := misses + 1;
        return Unknown(mint, decimals);
      }
      var h := histories[mint];
      var point := At(h.points, now);
      if point == None {
        misses := misses + 1;
        return Unknown(mint, h.decimals);
      }
      var stale := now - point.value.at > setup.maxStaleness;
      var age: Option<int> := None;
      if h.createdAt.Some? {
        var seconds := WholeSeconds(now - h.createdAt.value);
        age := Some(if seconds < 0 then 0 else seconds);
      }
      return MarketState(mint, InSol(point.value.priceUsd, setup.solPrice), point.value.priceUsd,
                         point.value.liquidityUsd, h.decimals, h.symbol, age, Some(point.value.at), stale);
    }

    method GetQuote(input: Mint, output: Mint, amount: nat, slippage: int) returns (quote: Option<Quote>)
      modifies this`misses
      ensures quote == QuoteAt(histories, setup, now, input, output, amount, slippage)
      ensures misses == old(misses) + Miss(histories, now, if output in histories then output else input)
    {
      var buying := output in histories;
      var state := GetMarketState(if buying then output else input, 9);
      if state.stale || state.priceUsd <= 0.0 { return None; }
      var inUsd := NotionalUsd(state, setup, buying, amount);
      var impact := setup.impact(inUsd, state.liquidityUsd);
      var outRaw := if buying then Bought(state, inUsd, impact) else SoldFor(state, amount, impact, setup.solPrice);
      if outRaw <= 0 { return None; }
      return Some(Quote(input, output, amount, outRaw, impact, slippage));
    }
  }

  // ---------------------------------------------------------------- no lookahead

  /** The same past and the same token metadata; the futures may differ in any way. */
  predicate SamePast(h: TokenHistory, k: TokenHistory, t: Time) {
    Seen(h.points, t) == Seen(k.points, t) && h.(points := []) == k.(points := [])
  }

  ghost predicate AgreeUpTo(hs: Histories, ks: Histories, t: Time) {
    hs.Keys == ks.Keys && forall m :: m in hs ==> SamePast(hs[m], ks[m], t)
  }

  function LoadAll(raw: Histories): Histories { map m | m in raw :: Load(raw[m]) }

  /** A lookup in a loaded history looks at the points seen by then, and at nothing else. */
  lemma LookupSeesPast(ps: seq<PricePoint>, when: Time)
    ensures var past := Sort(Seen(ps, when), Moment);
            At(Sort(ps, Moment), when) == if past == [] then None else Some(past[|past| - 1])
  {
    SortOrders(ps, Moment);
    AtOfSeen(Sort(ps, Moment), when);
    UptoSort(ps, Moment, when);
  }

  lemma LookupsAgree(ps: seq<PricePoint>, qs: seq<PricePoint>, t: Time, when: Time)
    requires Seen(ps, t) == Seen(qs, t) && when <= t
    ensures At(Sort(ps, Moment), when) == At(Sort(qs, Moment), when)
  {
    UptoTwice(ps, Moment, t, when);
    UptoTwice(qs, Moment, t, when);
    LookupSeesPast(ps, when);
    LookupSeesPast(qs, when);
  }

  /** Two providers whose unsorted histories agree up to t answer alike at every clock up to t. */
  lemma NoLookahead(hs: Histories, ks: Histories, setup: Setup, t: Time, now: Time)
    requires AgreeUpTo(hs, ks, t) && now <= t
    ensures forall m: Mint, decimals: nat ::
              StateAt(LoadAll(hs), setup, now, m, decimals) == StateAt(LoadAll(ks), setup, now, m, decimals)
    ensures forall input: Mint, output: Mint, amount: nat, slippage: int ::
              QuoteAt(LoadAll(hs), setup, now, input, output, amount, slippage)
              == QuoteAt(LoadAll(ks), setup, now, input, output, amount, slippage)
  {
    forall m: Mint, decimals: nat
      ensures StateAt(LoadAll(hs), setup, now, m, decimals) == StateAt(LoadAll(ks), setup, now, m, decimals)
    {
      StateAgrees(hs, ks, setup, t, now, m, decimals);
    }
    forall input: Mint, output: Mint, amount: nat, slippage: int
      ensures QuoteAt(LoadAll(hs), setup, now, input, output, amount, slippage)
           == QuoteAt(LoadAll(ks), setup, now, input, output, amount, slippage)
    {
      StateAgrees(hs, ks, setup, t, now, if output in LoadAll(hs) then output else input, 9);
    }
  }

  lemma StateAgrees(hs: Histories, ks: Histories, setup: Setup, t: Time, now: Time, m: Mint, decimals: nat)
    requires AgreeUpTo(hs, ks, t) && now <= t
    ensures StateAt(LoadAll(hs), setup, now, m, decimals) == StateAt(LoadAll(ks), setup, now, m, decimals)
    ensures LoadAll(hs).Keys == LoadAll(ks).Keys
  {
    if m in hs {
      assert SamePast(hs[m], ks[m], t);
      LookupsAgree(hs[m].points, ks[m].points, t, now);
    }
  }
}
