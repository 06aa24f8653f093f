/** The staking widget (components/ui/stake-widget.tsx): an amount field with the same
    filter as the swap widget, and a submit handler that does nothing. */
module StakeWidget {
  import opened AmountInput

  /** The widget's parameters, as parsed from its query string. */
  datatype StakeParams = StakeParams(amount: string, source: string, target: string)

  class StakeForm {
    var amount: string

    /** The field starts at the amount from the widget's parameters. */
    constructor (params: StakeParams)
      ensures amount == params.amount
    {
      amount := params.amount;
    }

    /** An edit is kept only when it passes the amount pattern. */
    method OnChange(typed: string)
      modifies this
      ensures amount == if IsAmountText(typed) then typed else old(amount)
    {
      if IsAmountText(typed) {
        amount := typed;
      }
    }

    /** Submitting changes nothing and sends nothing: the source's handler has an empty
        body, so this method has no `modifies` clause and an empty body too. */
    method OnSubmit(values: string)
      ensures amount == old(amount)
    {
    }
  }
}
