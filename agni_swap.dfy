/** The Agni swap mutation (hooks/use-agni-swap.ts): from a quote, approve the input token
    when the cached allowance is short, submit `exactInputSingle` to the Agni router, wait
    for the receipt and hand it back only when it reports success. */
module AgniSwap {
  import opened Common
  import opened Constants
  import opened TokenApproval

  const POOL_FEE: nat := 500
  const DEADLINE_SECONDS: nat := 60 * 5

  /** One side of a quote. */
  datatype QuoteToken = QuoteToken(address: string, decimals: nat, isNative: bool)

  /** The parts of the Agni SDK's `SwapInfo` the mutation reads: the two tokens, the
      allowance spender for the input, and the quoted input and minimum-output texts. */
  datatype SwapInfo = SwapInfo(
    token0: QuoteToken,
    token1: QuoteToken,
    spender: Option<string>,
    inputAmount: string,
    minimumReceived: string)

  /** The connected wallet. */
  datatype Account = Account(address: Option<string>, chainId: Option<int>)

  /** The router's `ExactInputSingleParams`. */
  datatype ExactInputSingle = ExactInputSingle(
    tokenIn: Option<string>,
    tokenOut: string,
    fee: nat,
    recipient: string,
    deadline: int,
    amountIn: nat,
    amountOutMinimum: nat,
    sqrtPriceLimitX96: nat)

  /** An `exactInputSingle` call on `router` (None when the chain has no router entry),
      with the native value attached, if any. */
  datatype SwapCall = SwapCall(router: Option<string>, params: ExactInputSingle, value: Option<nat>)

  /** A transaction the mutation submits. */
  datatype Tx = ApprovalTx(approve: ApproveCall) | SwapTx(swap: SwapCall)

  datatype Receipt = Receipt(transactionHash: string, status: TxStatus)

  /** How the mutation's outside calls turn out: `parseUnits` on the input and on the
      minimum-received texts, the clock in milliseconds, the approval's calls, the swap
      write (resolving to its hash) and the wait for the swap's receipt. */
  datatype SwapEnv = SwapEnv(
    parsedInput: Outcome<nat>,
    parsedMinimum: Outcome<nat>,
    nowMs: nat,
    approval: ApprovalEnv,
    write: Outcome<string>,
    receipt: Outcome<TxStatus>)

  /** The transactions submitted, in order, and what the mutation resolves with
      (None for undefined). */
  datatype SwapRun = SwapRun(submitted: seq<Tx>, outcome: Outcome<Option<Receipt>>)

  /** The address handed to the allowance hook and used as `tokenIn`: the chain's wrapped
      native token (Mantle's when no chain is known) for a native source, else the
      source token's own address. */
  function TokenIn(info: Option<SwapInfo>, chainId: Option<int>): (r: Option<string>)
    ensures info.None? ==> r.None?
    ensures info.Some? && !info.value.token0.isNative ==> r == Some(info.value.token0.address)
    ensures info.Some? && info.value.token0.isNative && chainId.Some? ==> r == Lookup(WRAPPED_NATIVE, chainId.value)
    ensures info.Some? && info.value.token0.isNative && chainId.None? ==> r == Some(WRAPPED_NATIVE[MANTLE])
  {
    if info.None? then None
    else if info.value.token0.isNative then Lookup(WRAPPED_NATIVE, chainId.GetOr(MANTLE))
    else Some(info.value.token0.address)
  }

  /** The spender handed to the allowance hook. */
  function Spender(info: Option<SwapInfo>): Option<string> {
    if info.None? then None else info.value.spender
  }

  /** The swap call for a connected wallet on a known, non-zero chain. */
  function SwapCallFor(info: SwapInfo, recipient: string, chainId: int, amountIn: nat, nowMs: nat): (r: SwapCall)
    ensures r.router == Lookup(AGNI_ROUTER_ADDRESS, chainId)
    ensures r.params.tokenIn == TokenIn(Some(info), Some(chainId))
    ensures r.params.tokenOut == info.token1.address
    ensures r.params.fee == 500 && r.params.recipient == recipient
    ensures r.params.amountIn == amountIn
    ensures r.params.amountOutMinimum == 0 && r.params.sqrtPriceLimitX96 == 0
    ensures r.params.deadline * 1000 <= nowMs + 300_000 < (r.params.deadline + 1) * 1000
    ensures r.value.Some? <==> r.params.tokenIn == Lookup(WRAPPED_NATIVE, chainId)
    ensures r.value.Some? ==> r.value.value == amountIn
    ensures info.token0.isNative ==> r.value == Some(amountIn)
  {
    var tokenIn := TokenIn(Some(info), Some(chainId));
    SwapCall(
      Lookup(AGNI_ROUTER_ADDRESS, chainId),
      ExactInputSingle(tokenIn, info.token1.address, POOL_FEE, recipient,
                       nowMs / 1000 + DEADLINE_SECONDS, amountIn, 0, 0),
      if tokenIn == Lookup(WRAPPED_NATIVE, chainId) then Some(amountIn) else None)
  }

  /** Whether the mutation gets past its first guard. */
  predicate Ready(info: Option<SwapInfo>, account: Account) {
    info.Some? && Truthy(account.address) && account.chainId.Some? && account.chainId.value != 0
  }

  /** The whole mutation, given the allowance cached by the hook when it runs. */
  function SwapRunFor(info: Option<SwapInfo>, account: Account, allowance: Option<nat>, env: SwapEnv): (r: SwapRun)
    // nothing is sent, and the result is undefined, without a quote, an address or a chain
    ensures !Ready(info, account) ==> r == SwapRun([], Done(None))
    // nor without a non-zero input amount
    ensures Ready(info, account) && info.value.inputAmount == "" ==> r == SwapRun([], Done(None))
    ensures Ready(info, account) && info.value.inputAmount != "" && env.parsedInput == Done(0) ==>
      r == SwapRun([], Done(None))
    // at most an approval followed by the swap
    ensures |r.submitted| <= 2
    ensures |r.submitted| == 2 ==> r.submitted[0].ApprovalTx? && r.submitted[1].SwapTx?
    // an approval is submitted first exactly when the allowance is short of the input
    ensures |r.submitted| > 0 && r.submitted[0].ApprovalTx? ==>
      && Ready(info, account) && env.parsedInput.Done?
      && NeedsApproval(Some(env.parsedInput.value), allowance)
      && r.submitted[0].approve.amount == env.parsedInput.value
    // a swap is submitted only after a successful approval, and with the call's fixed fields
    ensures |r.submitted| > 0 && r.submitted[|r.submitted| - 1].SwapTx? ==>
      && Ready(info, account) && env.parsedInput.Done? && env.parsedInput.value != 0
      && (r.submitted[0].ApprovalTx? ==> ApproveOutcome(env.approval).Done?)
      && r.submitted[|r.submitted| - 1].swap
         == SwapCallFor(info.value, account.address.value, account.chainId.value, env.parsedInput.value, env.nowMs)
    // the receipt is returned only when it reports success; a reverted swap gives undefined
    ensures r.outcome.Done? && r.outcome.value.Some? ==>
      && env.write.Done? && env.receipt == Done(Success)
      && r.outcome.value.value == Receipt(env.write.value, Success)
      && |r.submitted| > 0 && r.submitted[|r.submitted| - 1].SwapTx?
    ensures |r.submitted| > 0 && r.submitted[|r.submitted| - 1].SwapTx? && env.write.Done? && env.receipt.Done? ==>
      r.outcome == Done(if env.receipt.value == Success then Some(Receipt(env.write.value, Success)) else None)
    // a failed parse of the input is rethrown before anything is sent
    ensures Ready(info, account) && info.value.inputAmount != "" && env.parsedInput.Threw? ==>
      r == SwapRun([], Threw(env.parsedInput.error))
    // a failed approval is rethrown, and the swap is not sent
    ensures Ready(info, account) && info.value.inputAmount != "" && env.parsedInput.Done? && env.parsedInput.value != 0
            && NeedsApproval(Some(env.parsedInput.value), allowance) ==>
      var request := ApproveRequest(TokenIn(info, account.chainId), Spender(info), env.parsedInput.value);
      && (request.None? ==> r == SwapRun([], Threw(MISSING_PARAMS)))
      && (request.Some? && ApproveOutcome(env.approval).Threw? ==>
            r == SwapRun([ApprovalTx(request.value)], Threw(ApproveOutcome(env.approval).error)))
    // past the approval, the swap is sent, and its write, its receipt or a failed parse of the
    // minimum decides the outcome
    ensures Ready(info, account) && info.value.inputAmount != "" && env.parsedInput.Done? && env.parsedInput.value != 0
            && (NeedsApproval(Some(env.parsedInput.value), allowance) ==>
                  ApproveRequest(TokenIn(info, account.chainId), Spender(info), env.parsedInput.value).Some?
                  && ApproveOutcome(env.approval).Done?) ==>
      var swap := SwapTx(SwapCallFor(info.value, account.address.value, account.chainId.value, env.parsedInput.value, env.nowMs));
      var approval := if NeedsApproval(Some(env.parsedInput.value), allowance)
        then [ApprovalTx(ApproveRequest(TokenIn(info, account.chainId), Spender(info), env.parsedInput.value).value)]
        else [];
      if info.value.minimumReceived != "" && env.parsedMinimum.Threw? then
        r == SwapRun(approval, Threw(env.parsedMinimum.error))
      else
        && r.submitted == approval + [swap]
        && (env.write.Threw? ==> r.outcome == Threw(env.write.error))
        && (env.write.Done? && env.receipt.Threw? ==> r.outcome == Threw(env.receipt.error))
        && (env.write.Done? && env.receipt == Done(Success) ==> r.outcome == Done(Some(Receipt(env.write.value, Success))))
        && (env.write.Done? && env.receipt == Done(Reverted) ==> r.outcome == Done(None))
  {
    if !Ready(info, account) then SwapRun([], Done(None))
    else
      var si, chainId := info.value, account.chainId.value;
      if si.inputAmount == "" then SwapRun([], Done(None))
      else if env.parsedInput.Threw? then SwapRun([], Threw(env.parsedInput.error))
      else if env.parsedInput.value == 0 then SwapRun([], Done(None))
      else
        var amount := env.parsedInput.value;
        var approval: seq<Tx> :=
          if NeedsApproval(Some(amount), allowance) then
            match ApproveRequest(TokenIn(info, account.chainId), Spender(info), amount)
            case Some(call) => [ApprovalTx(call)]
            case None => []
          else [];
        var approved: Outcome<string> :=
          if !NeedsApproval(Some(amount), allowance) then Done("")
          else if approval == [] then Threw(MISSING_PARAMS)
          else ApproveOutcome(env.approval);
        if approved.Threw? then SwapRun(approval, Threw(approved.error))
        else if si.minimumReceived != "" && env.parsedMinimum.Threw? then SwapRun(approval, Threw(env.parsedMinimum.error))
        else
          var call := SwapCallFor(si, account.address.value, chainId, amount, env.nowMs);
          var submitted := approval + [SwapTx(call)];
          match env.write
          case Threw(e) => SwapRun(submitted, Threw(e))
          case Done(hash) =>
            match env.receipt
            case Threw(e) => SwapRun(submitted, Threw(e))
            case Done(status) =>
              SwapRun(submitted, Done(if status == Success then Some(Receipt(hash, Success)) else None))
  }

  /** With the hook's invariant, an approval is never refused by its own guard when the
      swap asks for one: it is submitted exactly when the allowance is short. */
  lemma ApprovalExactlyWhenShort(info: Option<SwapInfo>, account: Account, allowance: Option<nat>, env: SwapEnv)
    requires allowance.Some? ==> Truthy(TokenIn(info, account.chainId)) && Truthy(Spender(info))
    requires Ready(info, account) && info.value.inputAmount != "" && env.parsedInput.Done?
    ensures var r := SwapRunFor(info, account, allowance, env);
      |r.submitted| > 0 && r.submitted[0].ApprovalTx? <==> NeedsApproval(Some(env.parsedInput.value), allowance)
  {
    if NeedsApproval(Some(env.parsedInput.value), allowance) {
      NeedsApprovalPassesGuard(TokenIn(info, account.chainId), Spender(info), env.parsedInput.value, allowance);
    }
  }

  /** With the hook's invariant, a quote with a non-zero input whose approval (when one is
      needed), write and receipt all succeed is swapped: the swap is the last transaction
      sent and the mutation resolves with its receipt. */
  lemma SwapSucceeds(info: Option<SwapInfo>, account: Account, allowance: Option<nat>, env: SwapEnv)
    requires allowance.Some? ==> Truthy(TokenIn(info, account.chainId)) && Truthy(Spender(info))
    requires Ready(info, account) && info.value.inputAmount != ""
    requires env.parsedInput.Done? && env.parsedInput.value != 0
    requires env.approval.write.Done? && env.approval.receipt.Done?
    requires info.value.minimumReceived == "" || env.parsedMinimum.Done?
    requires env.write.Done? && env.receipt == Done(Success)
    ensures var r := SwapRunFor(info, account, allowance, env);
      && |r.submitted| > 0
      && r.submitted[|r.submitted| - 1]
         == SwapTx(SwapCallFor(info.value, account.address.value, account.chainId.value, env.parsedInput.value, env.nowMs))
      && r.outcome == Done(Some(Receipt(env.write.value, Success)))
  {
    if NeedsApproval(Some(env.parsedInput.value), allowance) {
      NeedsApprovalPassesGuard(TokenIn(info, account.chainId), Spender(info), env.parsedInput.value, allowance);
    }
  }

  /** `mutationFn`, against the allowance hook the component created for this quote. */
  method Swap(info: Option<SwapInfo>, account: Account, hook: TokenApprovalHook, env: SwapEnv)
    returns (r: Outcome<Option<Receipt>>, submitted: seq<Tx>)
    requires hook.Valid()
    requires hook.token == TokenIn(info, account.chainId) && hook.spender == Spender(info)
    modifies hook
    ensures hook.Valid()
    ensures SwapRun(submitted, r) == SwapRunFor(info, account, old(hook.currentAllowance), env)
    // the cached allowance is refreshed only by a successful approval whose refetch returned
    ensures hook.currentAllowance ==
      if |submitted| > 0 && submitted[0].ApprovalTx? && ApproveOutcome(env.approval).Done? && env.approval.refetched.Some?
      then env.approval.refetched
      else old(hook.currentAllowance)
  {
    submitted := [];
    if info.None? || !Truthy(account.address) || account.chainId.None? || account.chainId.value == 0 {
      return Done(None), submitted;
    }
    var si, address, chainId := info.value, account.address.value, account.chainId.value;
    if si.inputAmount == "" {
      return Done(None), submitted;
    }
    if env.parsedInput.Threw? {
      return Threw(env.parsedInput.error), submitted;
    }
    var inputAmount := env.parsedInput.value;
    if inputAmount == 0 {
      return Done(None), submitted;
    }
    if hook.CheckNeedsApproval(Some(inputAmount)) {
      var approved, tx := hook.Approve(inputAmount, env.approval);
      if tx.Some? {
        submitted := submitted + [ApprovalTx(tx.value)];
      }
      if approved.Threw? {
        return Threw(approved.error), submitted;
      }
    }
    // `minimumReceived` is parsed, and may throw, but the parsed value is not used
    if si.minimumReceived != "" && env.parsedMinimum.Threw? {
      return Threw(env.parsedMinimum.error), submitted;
    }
    var call := SwapCallFor(si, address, chainId, inputAmount, env.nowMs);
    submitted := submitted + [SwapTx(call)];
    if env.write.Threw? {
      return Threw(env.write.error), submitted;
    }
    var hash := env.write.value;
    if env.receipt.Threw? {
      return Threw(env.receipt.error), submitted;
    }
    if env.receipt.value == Success {
      r := Done(Some(Receipt(hash, Success)));
    } else {
      r := Done(None);
    }
  }
}
