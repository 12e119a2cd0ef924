/**
 * Position accounting for one held asset: the OwnedAsset record of
 * pytech/fin/asset/owned_asset.py.
 *
 * Prices are exact reals (the source uses floats); share counts are integers.
 * The accounting fields are gathered in the value type Holding, whose pure
 * functions specify the mutating methods of the class OwnedAsset.
 */
module OwnedAssets {
  import opened Wrappers

  /** The side of a position. */
  datatype Position = Long | Short

  /**
   * A Python number as the shares_owned setter sees it: a value of an
   * integral type, or a value of any other numeric type (a float, even one
   * whose value happens to be whole).
   */
  datatype Number = Integral(n: int) | NonIntegral(x: real)

  /** The exceptions the modelled code raises. */
  datatype Error = TypeError | ZeroDivisionError

  /** What a Python call does: return a value, or raise. */
  datatype Outcome<+T> = Returned(value: T) | Raised(error: Error)

  /** The fields of a trade that from_trade reads (its date is not modelled). */
  datatype Trade = Trade(ticker: string, qty: Number, avgPricePerShare: real)

  /** The accounting state of an OwnedAsset, as a value. */
  datatype Holding = Holding(
    ticker: string,
    position: Position,
    sharesOwned: int,
    averageSharePricePaid: real,
    latestPrice: real,
    totalPositionCost: real,
    totalPositionValue: real)
  {
    /**
     * The market_value property: shares held times the latest price, whatever
     * the side; zero exactly when nothing is held or the price is zero.
     */
    function MarketValue(): (r: real)
      ensures r == 0.0 <==> sharesOwned == 0 || latestPrice == 0.0
      ensures sharesOwned >= 0 && latestPrice >= 0.0 ==> r >= 0.0
    {
      sharesOwned as real * latestPrice
    }
  }

  /** The sign convention: a LONG position records an amount as it is, a SHORT one negated. */
  function Signed(position: Position, amount: real): real {
    if position == Long then amount else -amount
  }

  /** value + cost: what the sign convention is meant to make the unrealised profit or loss. */
  function Net(h: Holding): real {
    h.totalPositionValue + h.totalPositionCost
  }

  /** Python's `+` on two numbers: integral only when both operands are. */
  function Plus(a: Number, b: Number): (r: Number)
    ensures r.Integral? <==> a.Integral? && b.Integral?
    ensures r.Integral? ==> r.n == a.n + b.n
  {
    match (a, b)
    case (Integral(x), Integral(y)) => Integral(x + y)
    case _ => NonIntegral(AsReal(a) + AsReal(b))
  }

  function AsReal(a: Number): real {
    match a
    case Integral(n) => n as real
    case NonIntegral(x) => x
  }

  /** Python's true division of a float by an int share count. */
  function Divide(x: real, y: int): (r: Outcome<real>)
    ensures r.Raised? <==> y == 0
    ensures r.Raised? ==> r.error == ZeroDivisionError
    ensures r.Returned? ==> r.value * y as real == x
  {
    if y == 0 then Raised(ZeroDivisionError) else Returned(x / y as real)
  }

  /**
   * _set_position_cost_and_value: the signed amount price * shares_owned is
   * added to the value and its negation to the cost, so value + cost does not
   * move; nothing else changes.
   */
  function WithCostAndValue(h: Holding, price: real): (r: Holding)
    ensures r.totalPositionValue == h.totalPositionValue + Signed(h.position, price * h.sharesOwned as real)
    ensures r.totalPositionCost == h.totalPositionCost - Signed(h.position, price * h.sharesOwned as real)
    ensures Net(r) == Net(h)
    ensures r == h.(totalPositionCost := r.totalPositionCost, totalPositionValue := r.totalPositionValue)
  {
    var amount := price * h.sharesOwned as real;
    if h.position == Long then
      h.(totalPositionCost := h.totalPositionCost + amount * -1.0,
         totalPositionValue := h.totalPositionValue + amount)
    else
      h.(totalPositionCost := h.totalPositionCost + amount,
         totalPositionValue := h.totalPositionValue + amount * -1.0)
  }

  /**
   * The state right after construction with an integral share count: both
   * prices are the purchase price, the value is the signed purchase amount
   * and the cost its negation, so value + cost is zero.
   */
  function Opened(ticker: string, sharesOwned: int, position: Position, avgSharePrice: real): (h: Holding)
    ensures h.ticker == ticker && h.position == position && h.sharesOwned == sharesOwned
    ensures h.averageSharePricePaid == avgSharePrice && h.latestPrice == avgSharePrice
    ensures position == Long ==>
      h.totalPositionValue == avgSharePrice * sharesOwned as real &&
      h.totalPositionCost == -(avgSharePrice * sharesOwned as real)
    ensures position == Short ==>
      h.totalPositionValue == -(avgSharePrice * sharesOwned as real) &&
      h.totalPositionCost == avgSharePrice * sharesOwned as real
    ensures Net(h) == 0.0
  {
    WithCostAndValue(Holding(ticker, position, sharesOwned, avgSharePrice, avgSharePrice, 0.0, 0.0), avgSharePrice)
  }

  /**
   * make_trade's effect for an integral quantity. The share count grows by
   * qty; the price is then charged on the whole post-trade share count
   * (not on qty); the average becomes value / shares unless the position is
   * now empty, where the division raises and the average keeps its value.
   */
  function AfterTrade(h: Holding, qty: int, price: real): (r: Holding)
    ensures r.sharesOwned == h.sharesOwned + qty
    ensures r.totalPositionValue == h.totalPositionValue + Signed(h.position, price * r.sharesOwned as real)
    ensures r.totalPositionCost == h.totalPositionCost - Signed(h.position, price * r.sharesOwned as real)
    ensures Net(r) == Net(h)
    ensures r.sharesOwned == 0 ==>
      r.totalPositionValue == h.totalPositionValue &&
      r.totalPositionCost == h.totalPositionCost &&
      r.averageSharePricePaid == h.averageSharePricePaid
    ensures r.sharesOwned != 0 ==>
      r.averageSharePricePaid * r.sharesOwned as real == r.totalPositionValue
    ensures r.ticker == h.ticker && r.position == h.position && r.latestPrice == h.latestPrice
  {
    var moved := WithCostAndValue(h.(sharesOwned := h.sharesOwned + qty), price);
    match Divide(moved.totalPositionValue, moved.sharesOwned)
    case Raised(_) => moved
    case Returned(average) => moved.(averageSharePricePaid := average)
  }

  /**
   * update_total_position_value: the latest price is replaced and the value
   * is overwritten with the signed market value at that price; the share
   * count, cost, average and side are left alone.
   */
  function MarkedToMarket(h: Holding, latestPrice: real): (r: Holding)
    ensures r.latestPrice == latestPrice
    ensures r.totalPositionValue == Signed(h.position, latestPrice * h.sharesOwned as real)
    ensures r == h.(latestPrice := latestPrice, totalPositionValue := r.totalPositionValue)
  {
    var marked := h.(latestPrice := latestPrice);
    if marked.position == Short then
      marked.(totalPositionValue := (marked.latestPrice * marked.sharesOwned as real) * -1.0)
    else
      marked.(totalPositionValue := marked.latestPrice * marked.sharesOwned as real)
  }

  /** Marking twice at the same price is the same as marking once. */
  lemma MarkIdempotent(h: Holding, latestPrice: real)
    ensures MarkedToMarket(MarkedToMarket(h, latestPrice), latestPrice) == MarkedToMarket(h, latestPrice)
  {
  }

  /**
   * After marking, the recorded value is the market value with the side's
   * sign: market_value itself is the same for LONG and SHORT.
   */
  lemma MarkedValueIsSignedMarketValue(h: Holding, latestPrice: real)
    ensures var m := MarkedToMarket(h, latestPrice);
      m.totalPositionValue == Signed(h.position, m.MarketValue()) &&
      m.MarketValue() == h.sharesOwned as real * latestPrice
  {
  }

  /** market_value does not depend on the side of the position. */
  lemma MarketValueIgnoresSide(h: Holding, side: Position)
    ensures h.(position := side).MarketValue() == h.MarketValue()
  {
  }

  /** The state after a sequence of make_trade calls with integral quantities. */
  function AfterTrades(h: Holding, trades: seq<(int, real)>): (r: Holding)
    ensures r.ticker == h.ticker && r.position == h.position && r.latestPrice == h.latestPrice
    decreases |trades|
  {
    if trades == [] then h
    else AfterTrades(AfterTrade(h, trades[0].0, trades[0].1), trades[1..])
  }

  /** No sequence of trades moves value + cost. */
  lemma {:induction false} TradesKeepNet(h: Holding, trades: seq<(int, real)>)
    ensures Net(AfterTrades(h, trades)) == Net(h)
    decreases |trades|
  {
    if trades != [] {
      TradesKeepNet(AfterTrade(h, trades[0].0, trades[0].1), trades[1..]);
    }
  }

  /** From construction on, value + cost stays zero until the next mark to market. */
  lemma OpenedThenTradedIsBalanced(ticker: string, sharesOwned: int, position: Position,
                                   avgSharePrice: real, trades: seq<(int, real)>)
    ensures Net(AfterTrades(Opened(ticker, sharesOwned, position, avgSharePrice), trades)) == 0.0
  {
    TradesKeepNet(Opened(ticker, sharesOwned, position, avgSharePrice), trades);
  }

  /**
   * make_trade is not a weighted average: holding n shares bought at p and
   * buying n more at the same p leaves an average of 1.5 * p, since the
   * price is charged on all 2 * n shares.
   */
  lemma AverageDriftsOnSamePriceBuy(ticker: string, n: int, p: real)
    requires n != 0
    ensures var h := AfterTrade(Opened(ticker, n, Long, p), n, p);
      h.sharesOwned == 2 * n &&
      h.totalPositionValue == 3.0 * (p * n as real) &&
      h.averageSharePricePaid == 1.5 * p
  {
    var h := AfterTrade(Opened(ticker, n, Long, p), n, p);
    var k := n as real;
    assert h.totalPositionValue == p * k + p * (2.0 * k);
    assert h.averageSharePricePaid * (2.0 * k) == 3.0 * (p * k);
    assert (h.averageSharePricePaid - 1.5 * p) * (2.0 * k) == 0.0;
  }

  /**
   * return_on_investment with the refresh at its first line made callable:
   * mark at the asset's own latest price, then (value + cost) / -cost; a
   * zero cost raises.
   */
  function ReturnOnInvestmentCorrected(h: Holding): (r: Outcome<real>)
    ensures r.Raised? <==> h.totalPositionCost == 0.0
    ensures r.Raised? ==> r.error == ZeroDivisionError
    ensures r.Returned? ==>
      r.value * -h.totalPositionCost == Net(MarkedToMarket(h, h.latestPrice))
  {
    var m := MarkedToMarket(h, h.latestPrice);
    if m.totalPositionCost * -1.0 == 0.0 then Raised(ZeroDivisionError)
    else Returned(Net(m) / (m.totalPositionCost * -1.0))
  }

  /**
   * For a position opened with n shares at p and marked at lp, the corrected
   * return on investment is (lp - p) / p, on either side.
   */
  lemma RoiOfOpenedPosition(ticker: string, n: int, position: Position, p: real, lp: real)
    requires n != 0 && p != 0.0
    ensures ReturnOnInvestmentCorrected(MarkedToMarket(Opened(ticker, n, position, p), lp))
      == Returned((lp - p) / p)
  {
    var h := MarkedToMarket(Opened(ticker, n, position, p), lp);
    var m := MarkedToMarket(h, h.latestPrice);
    var k := if position == Long then n as real else -(n as real);
    var gain, outlay := Net(m), m.totalPositionCost * -1.0;
    assert gain == (lp - p) * k;
    assert outlay == p * k;
    CancelFactor(lp - p, p, k);
    assert ((lp - p) * k) / (p * k) == (lp - p) / p;
    calc {
      ReturnOnInvestmentCorrected(h);
      Returned(gain / outlay);
      Returned(((lp - p) * k) / (p * k));
      Returned((lp - p) / p);
    }
  }

  /** A common non-zero factor cancels from a quotient. */
  lemma CancelFactor(x: real, p: real, k: real)
    requires p != 0.0 && k != 0.0
    ensures (x * k) / (p * k) == x / p
  {
    var r := x / p;
    assert r * p == x;
    assert r * (p * k) == (r * p) * k;
    assert r * (p * k) == x * k;
  }

  /** One held position, updated in place. */
  class OwnedAsset {
    var ticker: string
    var position: Position
    var sharesOwned: int
    var averageSharePricePaid: real
    var latestPrice: real
    var totalPositionCost: real
    var totalPositionValue: real

    /** The fields as a Holding value. */
    function State(): Holding
      reads this
    {
      Holding(ticker, position, sharesOwned, averageSharePricePaid, latestPrice,
              totalPositionCost, totalPositionValue)
    }

    /** __init__ for an integral share count. */
    constructor (ticker: string, sharesOwned: int, position: Position, avgSharePrice: real)
      ensures State() == Opened(ticker, sharesOwned, position, avgSharePrice)
    {
      this.ticker := ticker;
      this.position := position;
      averageSharePricePaid := avgSharePrice;
      latestPrice := avgSharePrice;
      totalPositionValue := 0.0;
      totalPositionCost := 0.0;
      this.sharesOwned := sharesOwned;
      new;
      SetPositionCostAndValue(avgSharePrice);
    }

    /** Calling the class: __init__ raises TypeError when the share count is not integral. */
    static method New(ticker: string, sharesOwned: Number, position: Position, avgSharePrice: real)
      returns (r: Outcome<OwnedAsset>)
      ensures r.Raised? <==> sharesOwned.NonIntegral?
      ensures r.Raised? ==> r.error == TypeError
      ensures r.Returned? ==>
        fresh(r.value) && r.value.State() == Opened(ticker, sharesOwned.n, position, avgSharePrice)
    {
      match sharesOwned
      case NonIntegral(_) =>
        r := Raised(TypeError);
      case Integral(n) =>
        var asset := new OwnedAsset(ticker, n, position, avgSharePrice);
        r := Returned(asset);
    }

    /**
     * from_trade as written: the keyword it passes for the price,
     * average_share_price, is not a parameter of __init__ (which takes
     * avg_share_price), so the call raises TypeError before __init__ runs,
     * whatever the trade holds.
     */
    static method FromTrade(trade: Trade, assetPosition: Position) returns (r: Outcome<OwnedAsset>)
      ensures r == Raised(TypeError)
    {
      r := Raised(TypeError);
    }

    /**
     * from_trade with the price passed as avg_share_price: an asset holding
     * the trade's quantity at the trade's price, on the given side.
     */
    static method FromTradeCorrected(trade: Trade, assetPosition: Position) returns (r: Outcome<OwnedAsset>)
      ensures r.Raised? <==> trade.qty.NonIntegral?
      ensures r.Raised? ==> r.error == TypeError
      ensures r.Returned? ==>
        fresh(r.value) &&
        r.value.State() == Opened(trade.ticker, trade.qty.n, assetPosition, trade.avgPricePerShare)
    {
      r := New(trade.ticker, trade.qty, assetPosition, trade.avgPricePerShare);
    }

    /** The shares_owned setter: only an integral value is stored. */
    method SetSharesOwned(v: Number) returns (r: Outcome<()>)
      modifies this
      ensures r.Raised? <==> v.NonIntegral?
      ensures r.Raised? ==> r.error == TypeError && State() == old(State())
      ensures r.Returned? ==> State() == old(State()).(sharesOwned := v.n)
    {
      if v.Integral? {
        sharesOwned := v.n;
        r := Returned(());
      } else {
        r := Raised(TypeError);
      }
    }

    /** _set_position_cost_and_value. */
    method SetPositionCostAndValue(price: real)
      modifies this
      ensures State() == WithCostAndValue(old(State()), price)
    {
      if position == Long {
        totalPositionCost := totalPositionCost + (price * sharesOwned as real) * -1.0;
        totalPositionValue := totalPositionValue + price * sharesOwned as real;
      } else {
        totalPositionCost := totalPositionCost + price * sharesOwned as real;
        totalPositionValue := totalPositionValue + (price * sharesOwned as real) * -1.0;
      }
    }

    /**
     * make_trade: returns this asset, or None when the trade leaves no shares
     * (the ZeroDivisionError is caught); a non-integral quantity makes the
     * setter raise before anything changes.
     */
    method MakeTrade(qty: Number, pricePerShare: real) returns (r: Outcome<Option<OwnedAsset>>)
      modifies this
      ensures qty.NonIntegral? ==> r == Raised(TypeError) && State() == old(State())
      ensures qty.Integral? ==> State() == AfterTrade(old(State()), qty.n, pricePerShare)
      ensures qty.Integral? ==> r == Returned(if sharesOwned == 0 then None else Some(this))
    {
      var stored := SetSharesOwned(Plus(Integral(sharesOwned), qty));
      if stored.Raised? {
        return Raised(stored.error);
      }
      SetPositionCostAndValue(pricePerShare);
      var average := Divide(totalPositionValue, sharesOwned);
      match average
      case Raised(_) =>
        r := Returned(None);
      case Returned(a) =>
        averageSharePricePaid := a;
        r := Returned(Some(this));
    }

    /** update_total_position_value (the date argument is not modelled). */
    method UpdateTotalPositionValue(latestPrice: real)
      modifies this
      ensures State() == MarkedToMarket(old(State()), latestPrice)
    {
      this.latestPrice := latestPrice;
      if position == Short {
        totalPositionValue := (this.latestPrice * sharesOwned as real) * -1.0;
      } else {
        totalPositionValue := this.latestPrice * sharesOwned as real;
      }
    }

    /**
     * return_on_investment as written: its first statement calls
     * update_total_position_value without the two arguments it requires, so
     * every call raises TypeError before anything is computed or changed.
     */
    method ReturnOnInvestment() returns (r: Outcome<real>)
      ensures r == Raised(TypeError)
    {
      r := Raised(TypeError);
    }
  }

  /**
   * The discrepancy: for any trade with an integral quantity, from_trade as
   * written raises where the corrected call returns a new asset.
   */
  method FromTradeDiscrepancy(trade: Trade, assetPosition: Position)
    returns (asWritten: Outcome<OwnedAsset>, corrected: Outcome<OwnedAsset>)
    requires trade.qty.Integral?
    ensures asWritten == Raised(TypeError)
    ensures corrected.Returned? && corrected.value.sharesOwned == trade.qty.n
    ensures corrected.value.averageSharePricePaid == trade.avgPricePerShare
  {
    asWritten := OwnedAsset.FromTrade(trade, assetPosition);
    corrected := OwnedAsset.FromTradeCorrected(trade, assetPosition);
  }

  /**
   * The discrepancy: on any asset with a non-zero cost (every asset opened
   * with a non-zero amount), return_on_investment as written raises where
   * the corrected expression has a value.
   */
  method ReturnOnInvestmentDiscrepancy(asset: OwnedAsset) returns (asWritten: Outcome<real>, corrected: Outcome<real>)
    requires asset.totalPositionCost != 0.0
    ensures asWritten == Raised(TypeError)
    ensures corrected.Returned?
  {
    asWritten := asset.ReturnOnInvestment();
    corrected := ReturnOnInvestmentCorrected(asset.State());
  }
}
