/** The ERC-20 allowance hook (hooks/use-token-approval.ts): a cached allowance query for
    (owner, spender) on a token, the predicate deciding whether an amount needs approval,
    and the approval routine (write `approve`, wait for the receipt, refetch the allowance,
    return the transaction hash). */
module TokenApproval {
  import opened Common

  const ZERO_ADDRESS: string := "0x0000000000000000000000000000000000000000"
  const MISSING_PARAMS: string := "Missing required parameters for approval"

  /** An `approve(spender, amount)` call on `token`. */
  datatype ApproveCall = ApproveCall(token: string, spender: string, amount: nat)

  /** How the approval's calls turn out: the write (resolving to the transaction hash),
      the wait for its receipt, and the allowance refetch (the fresh on-chain allowance, or
      None when the refetch fails and the cached value stays). */
  datatype ApprovalEnv = ApprovalEnv(write: Outcome<string>, receipt: Outcome<TxStatus>, refetched: Option<nat>)

  /** The owner whose allowance is read: the connected account, or the zero address. */
  function Owner(account: Option<string>): (r: string)
    ensures account.Some? ==> r == account.value
    ensures account.None? ==> r == ZERO_ADDRESS
  {
    account.GetOr(ZERO_ADDRESS)
  }

  /** Whether the allowance query runs. */
  predicate IsEnabled(token: Option<string>, spender: Option<string>, owner: string) {
    Truthy(token) && Truthy(spender) && owner != ""
  }

  /** With the owner defaulted, the query runs exactly when token and spender are set. */
  lemma EnabledWithDefaultOwner(token: Option<string>, spender: Option<string>)
    ensures IsEnabled(token, spender, Owner(None)) <==> Truthy(token) && Truthy(spender)
  {
  }

  /** `checkNeedsApproval` over the cached allowance: never for an absent or zero amount,
      never while the allowance is unknown, otherwise exactly when the allowance is short. */
  function NeedsApproval(amount: Option<nat>, allowance: Option<nat>): (r: bool)
    ensures !TruthyNat(amount) ==> !r
    ensures allowance.None? ==> !r
    ensures TruthyNat(amount) && allowance.Some? ==> (r <==> allowance.value < amount.value)
  {
    if !TruthyNat(amount) || allowance.None? then false else allowance.value < amount.value
  }

  /** The three scenarios: allowance 50 for 100 needs approval; 200 for 100 and 100 for 100
      do not. Needing approval is monotone in the amount. */
  lemma NeedsApprovalScenarios(a: nat, b: nat, allowance: nat)
    requires 0 < a <= b
    ensures NeedsApproval(Some(100), Some(50))
    ensures !NeedsApproval(Some(100), Some(200)) && !NeedsApproval(Some(100), Some(100))
    ensures NeedsApproval(Some(a), Some(allowance)) ==> NeedsApproval(Some(b), Some(allowance))
  {
  }

  /** The `approve` call `handleApprove` writes, or None when its guard throws first:
      both addresses must be non-empty and the amount non-zero. */
  function ApproveRequest(token: Option<string>, spender: Option<string>, amount: nat): (r: Option<ApproveCall>)
    ensures r.Some? <==> Truthy(token) && Truthy(spender) && amount != 0
    ensures r.Some? ==> r.value.token == token.value && r.value.spender == spender.value && r.value.amount == amount
  {
    if Truthy(token) && Truthy(spender) && amount != 0 then Some(ApproveCall(token.value, spender.value, amount)) else None
  }

  /** When a known allowance falls short of an amount, the approval guard passes: an
      allowance is only cached for a set token and spender, and the amount is non-zero. */
  lemma NeedsApprovalPassesGuard(token: Option<string>, spender: Option<string>, amount: nat, allowance: Option<nat>)
    requires allowance.Some? ==> Truthy(token) && Truthy(spender)
    requires NeedsApproval(Some(amount), allowance)
    ensures ApproveRequest(token, spender, amount).Some?
  {
  }

  /** What the approval resolves with once the guard has passed: the hash as soon as the
      receipt arrives, whatever its status; a thrown error is rethrown. */
  function ApproveOutcome(env: ApprovalEnv): (r: Outcome<string>)
    ensures r.Done? <==> env.write.Done? && env.receipt.Done?
    ensures r.Done? ==> r.value == env.write.value
    ensures env.write.Threw? ==> r == Threw(env.write.error)
    ensures env.write.Done? && env.receipt.Threw? ==> r == Threw(env.receipt.error)
  {
    match env.write
    case Threw(e) => Threw(e)
    case Done(hash) =>
      match env.receipt
      case Threw(e) => Threw(e)
      case Done(_) => Done(hash)
  }

  /** The hook's state for one (token, spender) pair. */
  class TokenApprovalHook {
    const token: Option<string>
    const spender: Option<string>
    const owner: string
    var currentAllowance: Option<nat>

    /** An allowance is only ever known for a set token and spender. */
    ghost predicate Valid()
      reads this
    {
      currentAllowance.Some? ==> Truthy(token) && Truthy(spender)
    }

    /** The hook as first rendered, `fetched` being what the allowance query returns. */
    constructor (token: Option<string>, spender: Option<string>, account: Option<string>, fetched: Option<nat>)
      ensures Valid()
      ensures this.token == token && this.spender == spender && owner == Owner(account)
      ensures currentAllowance == if IsEnabled(token, spender, Owner(account)) then fetched else None
    {
      this.token := token;
      this.spender := spender;
      owner := Owner(account);
      currentAllowance := if IsEnabled(token, spender, Owner(account)) then fetched else None;
    }

    predicate CheckNeedsApproval(amount: Option<nat>)
      reads this
    {
      NeedsApproval(amount, currentAllowance)
    }

    /** `handleApprove`: `tx` is the approve call written, if any. */
    method Approve(amount: nat, env: ApprovalEnv) returns (r: Outcome<string>, tx: Option<ApproveCall>)
      requires Valid()
      modifies this
      ensures Valid()
      ensures tx == ApproveRequest(token, spender, amount)
      ensures tx.None? ==> r == Threw(MISSING_PARAMS) && currentAllowance == old(currentAllowance)
      ensures tx.Some? ==> r == ApproveOutcome(env)
      ensures tx.Some? ==>
        currentAllowance == if r.Done? && env.refetched.Some? then env.refetched else old(currentAllowance)
    {
      if !Truthy(token) || !Truthy(spender) || amount == 0 {
        return Threw(MISSING_PARAMS), None;
      }
      tx := Some(ApproveCall(token.value, spender.value, amount));
      if env.write.Threw? {
        return Threw(env.write.error), tx;
      }
      var hash := env.write.value;
      if env.receipt.Threw? {
        return Threw(env.receipt.error), tx;
      }
      // the receipt's status is not looked at
      if env.refetched.Some? {
        currentAllowance := env.refetched;
      }
      r := Done(hash);
    }
  }
}
