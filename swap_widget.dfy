/** The swap widget (components/ui/swap-widget.tsx): the amount field, the USD figures under
    each side, the loading/failed/loaded line for each token and for the quote, when the form
    card is shown, and when the Swap button is disabled. */
module SwapWidget {
  import opened Common
  import opened AmountInput
  import opened TokenFromSymbol

  /** The widget's parameters, as parsed from its query string. */
  datatype SwapParams = SwapParams(amount: string, source: string, target: string)

  /** A BigNumber built from a text: not-a-number, or an exact decimal value. */
  datatype Decimal = NaN | Num(value: real)

  /** What the `$` line shows: the spinner (the figure is the falsy 0), the figure in
      whole hundredths of a dollar, or the text "NaN". */
  datatype UsdFigure = Spinner | Cents(hundredths: int) | NotANumber

  /** One status line. */
  datatype Status = Loading | CannotLoad | Loaded

  /** The parts of the quote the widget reads. */
  datatype Quote = Quote(canSwap: bool, token1Amount: Option<string>, token0PriceUSD: Option<real>, token1PriceUSD: Option<real>)

  /** The state of one query: still pending (or, for the quote, loading), and its data. */
  datatype QueryState<+T> = QueryState(loading: bool, data: Option<T>)

  /** The form card, shown once both tokens are known. */
  datatype Card = Card(sellUsd: UsdFigure, buyAmount: Option<string>, buyUsd: UsdFigure, swapDisabled: bool)

  datatype View = View(sourceStatus: seq<Status>, targetStatus: seq<Status>, quoteStatus: seq<Status>, card: Option<Card>)

  /** `toFixed(2, ROUND_DOWN)`: the value in hundredths, truncated toward zero. */
  function TruncateToHundredths(x: real): (r: int)
    ensures 0.0 <= x ==> 0 <= r && r as real <= 100.0 * x < r as real + 1.0
    ensures x < 0.0 ==> r <= 0 && r as real - 1.0 < 100.0 * x <= r as real
  {
    if 0.0 <= x then (100.0 * x).Floor else -((-100.0 * x).Floor)
  }

  /** The USD figure for an amount text: the spinner for an empty text; otherwise the amount
      times the price (0 when there is none), truncated to cents. */
  function UsdValue(amount: string, parsed: Decimal, priceUSD: Option<real>): (r: UsdFigure)
    ensures r.Spinner? <==> amount == ""
    ensures amount != "" && parsed.NaN? ==> r.NotANumber?
    ensures amount != "" && parsed.Num? && parsed.value >= 0.0 && priceUSD.GetOr(0.0) >= 0.0 ==>
      && r.Cents? && 0 <= r.hundredths
      && r.hundredths as real <= 100.0 * parsed.value * priceUSD.GetOr(0.0) < r.hundredths as real + 1.0
    ensures amount != "" && parsed.Num? && priceUSD.None? ==> r == Cents(0)
  {
    if amount == "" then Spinner
    else match parsed
      case NaN => NotANumber
      case Num(v) => Cents(TruncateToHundredths(v * priceUSD.GetOr(0.0)))
  }

  /** The three conditional status lines for one query. */
  function StatusLines(loading: bool, present: bool): (r: seq<Status>)
    ensures |r| == 1
    ensures r[0] == Loading <==> loading
    ensures r[0] == CannotLoad <==> !loading && !present
    ensures r[0] == Loaded <==> !loading && present
  {
    (if loading then [Loading] else [])
    + (if !loading && !present then [CannotLoad] else [])
    + (if !loading && present then [Loaded] else [])
  }

  /** The widget as rendered. `quotePending` is the quote query's `isPending`, which the
      button reads, while its status line reads `isLoading`. */
  function Render(
    formAmount: string, parsedAmount: Decimal, parsedBuy: Decimal,
    source: QueryState<Token>, target: QueryState<Token>, quote: QueryState<Quote>, quotePending: bool): (r: View)
    ensures |r.sourceStatus| == 1 && |r.targetStatus| == 1 && |r.quoteStatus| == 1
    ensures r.card.Some? <==> source.data.Some? && target.data.Some?
    ensures r.card.Some? ==>
      (r.card.value.swapDisabled <==> !(quote.data.Some? && quote.data.value.canSwap) || quotePending)
    ensures r.card.Some? ==> (r.card.value.sellUsd.Spinner? <==> formAmount == "")
    ensures r.card.Some? && quote.data.None? ==> r.card.value.buyUsd.Spinner?
    // the figures come from the quote: the sell side from the typed amount and token0's
    // price, the buy side from the quoted token1 amount and token1's price
    ensures r.card.Some? && quote.data.Some? ==>
      && r.card.value.buyAmount == quote.data.value.token1Amount
      && r.card.value.sellUsd == UsdValue(formAmount, parsedAmount, quote.data.value.token0PriceUSD)
      && r.card.value.buyUsd == UsdValue(quote.data.value.token1Amount.GetOr(""), parsedBuy, quote.data.value.token1PriceUSD)
    ensures r.card.Some? && quote.data.None? ==>
      && r.card.value.buyAmount.None?
      && r.card.value.sellUsd == UsdValue(formAmount, parsedAmount, None)
  {
    var buyAmount := if quote.data.Some? then quote.data.value.token1Amount else None;
    var price0 := if quote.data.Some? then quote.data.value.token0PriceUSD else None;
    var price1 := if quote.data.Some? then quote.data.value.token1PriceUSD else None;
    View(
      StatusLines(source.loading, source.data.Some?),
      StatusLines(target.loading, target.data.Some?),
      StatusLines(quote.loading, quote.data.Some?),
      if source.data.Some? && target.data.Some? then
        Some(Card(
          UsdValue(formAmount, parsedAmount, price0),
          buyAmount,
          UsdValue(buyAmount.GetOr(""), parsedBuy, price1),
          !(quote.data.Some? && quote.data.value.canSwap) || quotePending))
      else None)
  }

  /** The widget's form state. */
  class SwapForm {
    var amount: string

    /** The field starts at the amount from the widget's parameters. */
    constructor (params: SwapParams)
      ensures amount == params.amount
    {
      amount := params.amount;
    }

    /** An edit is kept only when it passes the amount pattern. */
    method OnChange(typed: string)
      modifies this
      ensures amount == if IsAmountText(typed) then typed else old(amount)
    {
      if IsAmountText(typed) {
        amount := typed;
      }
    }
  }

  /** A quote that cannot swap, or one still pending, disables the button; a ready quote
      that can swap enables it. */
  lemma SwapButtonRule(fa: string, pa: Decimal, pb: Decimal, s: Token, t: Token, q: Quote, pending: bool)
    ensures var v := Render(fa, pa, pb, QueryState(false, Some(s)), QueryState(false, Some(t)), QueryState(false, Some(q)), pending);
      !v.card.value.swapDisabled <==> q.canSwap && !pending
  {
  }
}
