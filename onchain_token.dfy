/** Deploying a token through the on-chain token factory (lib/use-create-token-onchain.ts):
    predict the token's address with `getMemeAddress`, call `createMeme` with the creation
    fee attached, wait for the receipt, and report the deployment only when it succeeded. */
module OnchainToken {
  import opened Common
  import opened Constants

  const HTTPS: string := "https://"
  const HTTP: string := "http://"
  const REQUIRED_ERROR: string := "Token name and symbol are required"
  const DEPLOY_ERROR: string := "Failed to deploy token: Unknown error"

  const WEI_PER_ETHER: nat := 1_000_000_000_000_000_000
  /** `parseEther("0.0001")`. */
  const CREATION_FEE_WEI: nat := 100_000_000_000_000

  predicate HasScheme(url: string) {
    IsPrefix(HTTPS, url) || IsPrefix(HTTP, url)
  }

  /** `ensureHttps`: nothing for a missing or empty URL, a URL with an http(s) scheme as it
      is, any other URL with "https://" in front. (The module defines it but never calls it.) */
  function EnsureHttps(url: Option<string>): (r: Option<string>)
    ensures r.None? <==> !Truthy(url)
    ensures r.Some? ==> HasScheme(r.value)
    ensures Truthy(url) && HasScheme(url.value) ==> r == url
    ensures Truthy(url) && !HasScheme(url.value) ==> r == Some(HTTPS + url.value)
  {
    if !Truthy(url) then None
    else if HasScheme(url.value) then url
    else
      assert (HTTPS + url.value)[..|HTTPS|] == HTTPS;
      Some(HTTPS + url.value)
  }

  /** Applying `ensureHttps` twice is applying it once. */
  lemma EnsureHttpsIdempotent(url: Option<string>)
    ensures EnsureHttps(EnsureHttps(url)) == EnsureHttps(url)
  {
  }

  /** The fee is a ten-thousandth of an ether. */
  lemma CreationFeeIsTenThousandthEther()
    ensures CREATION_FEE_WEI as real == 0.0001 * WEI_PER_ETHER as real
    ensures CREATION_FEE_WEI == Pow10(14)
  {
  }

  /** A call on the factory at `factory` (None when the chain has no factory entry). */
  datatype FactoryCall =
    | GetMemeAddress(factory: Option<string>, tokenId: nat)
    | CreateMeme(factory: Option<string>, name: string, symbol: string, tokenId: nat, value: nat)

  datatype Deployment = Deployment(status: TxStatus, transactionHash: string, tokenAddress: string)

  /** How the outside calls turn out: the generated token id, the predicted address, the
      `createMeme` write (resolving to its hash) and the wait for its receipt. */
  datatype OnchainEnv = OnchainEnv(
    tokenId: Outcome<nat>,
    predicted: Outcome<string>,
    write: Outcome<string>,
    receipt: Outcome<TxStatus>)

  /** The calls made, in order, and what the mutation resolves with (None for undefined). */
  datatype OnchainRun = OnchainRun(calls: seq<FactoryCall>, outcome: Outcome<Option<Deployment>>)

  /** The mutation, for the wallet's chain `chainId`. */
  function OnchainRunFor(name: string, symbol: string, chainId: Option<int>, env: OnchainEnv): (r: OnchainRun)
    // the guard throws before any call
    ensures name == "" || symbol == "" || !(chainId.Some? && chainId.value != 0) ==>
      r == OnchainRun([], Threw(REQUIRED_ERROR))
    // past the guard, every failure is replaced by the same message
    ensures r.outcome.Threw? ==> r.outcome.error in {REQUIRED_ERROR, DEPLOY_ERROR}
    ensures name != "" && symbol != "" && chainId.Some? && chainId.value != 0 ==>
      (r.outcome.Threw? <==> env.tokenId.Threw? || env.predicted.Threw? || env.write.Threw? || env.receipt.Threw?)
    ensures name != "" && symbol != "" && chainId.Some? && chainId.value != 0 && r.outcome.Threw? ==>
      r.outcome.error == DEPLOY_ERROR
    // the creation is sent after the prediction, to the same factory, with the same id and the fee
    ensures |r.calls| <= 2
    ensures |r.calls| == 2 ==>
      && chainId.Some? && env.tokenId.Done? && env.predicted.Done?
      && r.calls[0] == GetMemeAddress(Lookup(TOKEN_FACTORY_ADDRESS, chainId.value), env.tokenId.value)
      && r.calls[1] == CreateMeme(Lookup(TOKEN_FACTORY_ADDRESS, chainId.value), name, symbol, env.tokenId.value, CREATION_FEE_WEI)
    // a deployment is reported only for a successful receipt, with the predicted address
    ensures r.outcome.Done? && r.outcome.value.Some? ==>
      && |r.calls| == 2 && env.receipt == Done(Success)
      && r.outcome.value.value == Deployment(Success, env.write.value, env.predicted.value)
    // a reverted receipt resolves with undefined rather than throwing
    ensures |r.calls| == 2 && env.write.Done? && env.receipt == Done(Reverted) ==> r.outcome == Done(None)
    // past the guard, the prediction is read once the token id is generated
    ensures name != "" && symbol != "" && chainId.Some? && chainId.value != 0 && env.tokenId.Done? ==>
      |r.calls| >= 1 && r.calls[0] == GetMemeAddress(Lookup(TOKEN_FACTORY_ADDRESS, chainId.value), env.tokenId.value)
    // and the token is created once the address is predicted; a successful receipt reports it
    ensures name != "" && symbol != "" && chainId.Some? && chainId.value != 0 && env.tokenId.Done? && env.predicted.Done? ==>
      && r.calls == [GetMemeAddress(Lookup(TOKEN_FACTORY_ADDRESS, chainId.value), env.tokenId.value),
                     CreateMeme(Lookup(TOKEN_FACTORY_ADDRESS, chainId.value), name, symbol, env.tokenId.value, CREATION_FEE_WEI)]
      && (env.write.Done? && env.receipt == Done(Success) ==>
            r.outcome == Done(Some(Deployment(Success, env.write.value, env.predicted.value))))
  {
    if name == "" || symbol == "" || chainId.None? || chainId.value == 0 then OnchainRun([], Threw(REQUIRED_ERROR))
    else if env.tokenId.Threw? then OnchainRun([], Threw(DEPLOY_ERROR))
    else
      var factory, tokenId := Lookup(TOKEN_FACTORY_ADDRESS, chainId.value), env.tokenId.value;
      var read := [GetMemeAddress(factory, tokenId)];
      if env.predicted.Threw? then OnchainRun(read, Threw(DEPLOY_ERROR))
      else
        var calls := read + [CreateMeme(factory, name, symbol, tokenId, CREATION_FEE_WEI)];
        if env.write.Threw? || env.receipt.Threw? then OnchainRun(calls, Threw(DEPLOY_ERROR))
        else if env.receipt.value == Success then
          OnchainRun(calls, Done(Some(Deployment(Success, env.write.value, env.predicted.value))))
        else OnchainRun(calls, Done(None))
  }

  /** Deploying succeeds exactly when, past the guard, every outside call succeeds and the
      receipt reports success; it then reports the predicted address. */
  lemma DeploySucceedsExactly(name: string, symbol: string, chainId: Option<int>, env: OnchainEnv)
    ensures var r := OnchainRunFor(name, symbol, chainId, env);
      r.outcome.Done? && r.outcome.value.Some? <==>
        && name != "" && symbol != "" && chainId.Some? && chainId.value != 0
        && env.tokenId.Done? && env.predicted.Done? && env.write.Done? && env.receipt == Done(Success)
    ensures var r := OnchainRunFor(name, symbol, chainId, env);
      r.outcome.Done? && r.outcome.value.Some? ==>
        r.outcome.value.value.tokenAddress == env.predicted.value && |r.calls| == 2
  {
  }

  /** `mutationFn`: the guard, then the factory calls inside a block that replaces any
      error by one message. */
  method CreateTokenOnchain(name: string, symbol: string, chainId: Option<int>, env: OnchainEnv)
    returns (r: Outcome<Option<Deployment>>, calls: seq<FactoryCall>)
    ensures OnchainRun(calls, r) == OnchainRunFor(name, symbol, chainId, env)
  {
    calls := [];
    if name == "" || symbol == "" || chainId.None? || chainId.value == 0 {
      return Threw(REQUIRED_ERROR), calls;
    }
    var failed := false;
    r := Done(None);
    if env.tokenId.Threw? {
      failed := true;
    } else {
      var factory := Lookup(TOKEN_FACTORY_ADDRESS, chainId.value);
      var tokenId := env.tokenId.value;
      calls := calls + [GetMemeAddress(factory, tokenId)];
      if env.predicted.Threw? {
        failed := true;
      } else {
        var tokenAddress := env.predicted.value;
        calls := calls + [CreateMeme(factory, name, symbol, tokenId, CREATION_FEE_WEI)];
        if env.write.Threw? {
          failed := true;
        } else {
          var hash := env.write.value;
          if env.receipt.Threw? {
            failed := true;
          } else if env.receipt.value == Success {
            r := Done(Some(Deployment(Success, hash, tokenAddress)));
          }
        }
      }
    }
    if failed {
      r := Threw(DEPLOY_ERROR);
    }
  }
}
