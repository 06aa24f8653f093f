/** The token-launch form (components/create-token-form.tsx). Submitting runs four awaited
    steps in order, threading the mint address and the market id forward: mint the token,
    create the Telegram group, create the market, create the AMM pool. The first step that
    throws ends the chain; the error is logged and not rethrown. On full success the form
    is reset to its defaults and the success callback receives the mint address. */
module TokenForm {
  import opened Common
  import opened SolanaToken

  /** The contract-address prefix of the Telegram message and of the launch message, as
      the source file spells it: the characters U+00F0 U+0178 U+0161 U+20AC (the UTF-8
      bytes of a rocket emoji read as Windows-1252), then " CA: ". */
  const CA_PREFIX: string := "\U{F0}\U{178}\U{161}\U{20AC} CA: "
  const SYMBOL_MAX_LENGTH: nat := 5

  datatype FormValues = FormValues(params: TokenParams, adminUsername: string, message: Option<string>)

  /** The optional initial values handed to the form. */
  datatype InitialValues = InitialValues(name: Option<string>, symbol: Option<string>, description: Option<string>, url: Option<string>)

  /** The JSON body posted to the Telegram route. */
  datatype TelegramRequest = TelegramRequest(groupName: string, groupDescription: string, adminUsername: string, imageUrl: string, message: Option<string>)

  /** An HTTP response: its status and what reading its body as JSON does. */
  datatype HttpResponse = HttpResponse(status: nat, json: Outcome<string>)

  /** One step the chain starts, with the arguments it is given. */
  datatype Step =
    | CreateToken(params: TokenParams)
    | CreateTelegramGroup(request: TelegramRequest)
    | CreateMarket(mint: string)
    | CreateAmmPool(mint: string, marketId: string, baseAmount: nat, quoteAmount: nat)

  datatype StepKind = MintToken | TelegramGroup | Market | AmmPool

  const LAUNCH_ORDER: seq<StepKind> := [MintToken, TelegramGroup, Market, AmmPool]

  /** How each awaited call of the chain turns out: the wallet context and calls of the
      mint step, the fetch of the Telegram route, the market creation (resolving to the
      market id) and the pool creation (resolving to the pool id). */
  datatype LaunchEnv = LaunchEnv(wallet: WalletContext, mint: MintEnv, telegram: Outcome<HttpResponse>, market: Outcome<string>, pool: Outcome<string>)

  /** The steps started, in order, and what the chain ends with: the mint address on full
      success, otherwise the error of the step that threw. */
  datatype LaunchRun = LaunchRun(started: seq<Step>, outcome: Outcome<string>)

  function KindOf(s: Step): StepKind {
    match s
    case CreateToken(_) => MintToken
    case CreateTelegramGroup(_) => TelegramGroup
    case CreateMarket(_) => Market
    case CreateAmmPool(_, _, _, _) => AmmPool
  }

  function Kinds(steps: seq<Step>): seq<StepKind> {
    seq(|steps|, i requires 0 <= i < |steps| => KindOf(steps[i]))
  }

  predicate IsAsciiLetter(c: char) {
    'A' <= c <= 'Z' || 'a' <= c <= 'z'
  }

  /** `replace(/[^A-Za-z]/g, "")`: drop every character that is not an ASCII letter. */
  function Letters(s: string): (r: string)
    ensures |r| <= |s|
    ensures forall i :: 0 <= i < |r| ==> IsAsciiLetter(r[i])
    ensures forall c :: IsAsciiLetter(c) ==> multiset(r)[c] == multiset(s)[c]
    ensures forall c :: !IsAsciiLetter(c) ==> multiset(r)[c] == 0
    ensures (forall i :: 0 <= i < |s| ==> IsAsciiLetter(s[i])) ==> r == s
  {
    if s == [] then []
    else
      assert s == [s[0]] + s[1..];
      (if IsAsciiLetter(s[0]) then [s[0]] else []) + Letters(s[1..])
  }

  /** The filter keeps the letters in order: filtering a concatenation is filtering each
      part. */
  lemma {:induction false} LettersAppend(s: string, t: string)
    ensures Letters(s + t) == Letters(s) + Letters(t)
  {
    if s == [] {
      assert s + t == t;
    } else {
      assert (s + t)[0] == s[0];
      assert (s + t)[1..] == s[1..] + t;
      LettersAppend(s[1..], t);
    }
  }

  /** Filtering twice is filtering once. */
  lemma LettersIdempotent(s: string)
    ensures Letters(Letters(s)) == Letters(s)
  {
  }

  /** The form's default values: each token field from the initial values or "", and an
      empty admin username. */
  function DefaultValues(init: InitialValues): (r: FormValues)
    ensures init.name.Some? ==> r.params.name == init.name.value
    ensures init.name.None? ==> r.params.name == ""
    ensures init.symbol.Some? ==> r.params.symbol == init.symbol.value
    ensures init.symbol.None? ==> r.params.symbol == ""
    ensures init.description.Some? ==> r.params.description == init.description.value
    ensures init.description.None? ==> r.params.description == ""
    ensures init.url.Some? ==> r.params.url == init.url.value
    ensures init.url.None? ==> r.params.url == ""
    ensures r.adminUsername == "" && r.message.None?
  {
    FormValues(
      TokenParams(init.name.GetOr(""), init.symbol.GetOr(""), init.description.GetOr(""), init.url.GetOr("")),
      "", None)
  }

  /** The admin username is a required field: an empty one blocks submission. */
  predicate AdminUsernameMissing(v: FormValues) {
    v.adminUsername == ""
  }

  /** The base amount seeding the pool: MINT_AMOUNT times 0.1 times 10^TOKEN_DECIMALS, which
      the source computes in exact decimal arithmetic. It is a tenth of the minted supply. */
  function BaseAmount(): (r: nat)
    ensures r as real == MINT_AMOUNT as real * 0.1 * Pow10(TOKEN_DECIMALS) as real
    ensures r == 1_000_000_000_000_000_000
    ensures 10 * r == MintedAmount()
  {
    MINT_AMOUNT / 10 * Pow10(TOKEN_DECIMALS)
  }

  /** The quote amount seeding the pool: 4 times 10^TOKEN_DECIMALS base units. */
  function QuoteAmount(): (r: nat)
    ensures r == 4_000_000_000
  {
    4 * Pow10(TOKEN_DECIMALS)
  }

  /** The Telegram request: the form's data with the message replaced. */
  function TelegramRequestFor(data: FormValues, message: string): (r: TelegramRequest)
    ensures r.message == Some(message)
    ensures r.groupName == data.params.name && r.groupDescription == data.params.description
    ensures r.adminUsername == data.adminUsername && r.imageUrl == data.params.url
  {
    TelegramRequest(data.params.name, data.params.description, data.adminUsername, data.params.url, Some(message))
  }

  /** The Telegram step resolves with the response's JSON body; the HTTP status is never
      looked at, so an error status counts as success unless the body is not JSON. */
  function TelegramOutcome(fetch: Outcome<HttpResponse>): (r: Outcome<string>)
    ensures r.Done? <==> fetch.Done? && fetch.value.json.Done?
    ensures r.Done? ==> r.value == fetch.value.json.value
    ensures fetch.Threw? ==> r == Threw(fetch.error)
  {
    match fetch
    case Threw(e) => Threw(e)
    case Done(response) => response.json
  }

  /** How step `i` of the chain turns out. */
  function StepOutcome(env: LaunchEnv, i: nat): Outcome<string>
    requires i < 4
  {
    if i == 0 then MintOutcome(env.wallet, env.mint)
    else if i == 1 then TelegramOutcome(env.telegram)
    else if i == 2 then env.market
    else env.pool
  }

  /** The chain as the submit handler runs it. */
  function RunLaunch(data: FormValues, env: LaunchEnv): (r: LaunchRun)
    // the steps started are a non-empty prefix of the launch order
    ensures 1 <= |r.started| <= 4
    ensures Kinds(r.started) == LAUNCH_ORDER[..|r.started|]
    // a step starts only once every earlier step has resolved
    ensures forall i :: 0 <= i < |r.started| - 1 ==> StepOutcome(env, i).Done?
    // the chain stops at the first step that throws, with that step's error
    ensures r.outcome.Threw? <==> StepOutcome(env, |r.started| - 1).Threw?
    ensures r.outcome.Threw? ==> r.outcome == StepOutcome(env, |r.started| - 1)
    ensures |r.started| < 4 ==> r.outcome.Threw?
    // full success means all four steps resolved, and yields the mint address
    ensures r.outcome.Done? <==> forall i :: 0 <= i < 4 ==> StepOutcome(env, i).Done?
    ensures r.outcome.Done? ==> r.outcome.value == env.mint.mintKey
    // the arguments each step receives
    ensures r.started[0] == CreateToken(data.params)
    ensures |r.started| >= 2 ==>
      r.started[1] == CreateTelegramGroup(TelegramRequestFor(data, CA_PREFIX + env.mint.mintKey))
    ensures |r.started| >= 3 ==> r.started[2] == CreateMarket(env.mint.mintKey)
    ensures |r.started| == 4 ==> env.market.Done?
    ensures |r.started| == 4 ==>
      r.started[3] == CreateAmmPool(env.mint.mintKey, env.market.value, BaseAmount(), QuoteAmount())
  {
    var first := [CreateToken(data.params)];
    match MintOutcome(env.wallet, env.mint)
    case Threw(e) => LaunchRun(first, Threw(e))
    case Done(mint) =>
      var second := first + [CreateTelegramGroup(TelegramRequestFor(data, CA_PREFIX + mint))];
      match TelegramOutcome(env.telegram)
      case Threw(e) => LaunchRun(second, Threw(e))
      case Done(_) =>
        var third := second + [CreateMarket(mint)];
        match env.market
        case Threw(e) => LaunchRun(third, Threw(e))
        case Done(marketId) =>
          var fourth := third + [CreateAmmPool(mint, marketId, BaseAmount(), QuoteAmount())];
          match env.pool
          case Threw(e) => LaunchRun(fourth, Threw(e))
          case Done(_) => LaunchRun(fourth, Done(mint))
  }

  /** The form component's state: its current values, the defaults `reset` restores, the
      steps it has started, the addresses handed to the success callback and the errors
      it has logged. */
  class CreateTokenForm {
    const defaults: FormValues
    var values: FormValues
    var issued: seq<Step>
    var notified: seq<string>
    var logged: seq<string>

    constructor (init: InitialValues)
      ensures defaults == DefaultValues(init) && values == defaults
      ensures issued == [] && notified == [] && logged == []
    {
      defaults := DefaultValues(init);
      values := DefaultValues(init);
      issued, notified, logged := [], [], [];
    }

    /** An edit of the symbol field keeps only its ASCII letters, so the symbol is never
        longer than what was typed. */
    method OnSymbolChange(typed: string)
      modifies this
      ensures values == old(values).(params := old(values).params.(symbol := Letters(typed)))
      ensures |values.params.symbol| <= |typed|
      ensures |typed| <= SYMBOL_MAX_LENGTH ==> |values.params.symbol| <= SYMBOL_MAX_LENGTH
      ensures issued == old(issued) && notified == old(notified) && logged == old(logged)
    {
      values := values.(params := values.params.(symbol := Letters(typed)));
    }

    /** The submit handler. */
    method OnSubmit(data: FormValues, env: LaunchEnv)
      modifies this
      ensures issued == old(issued) + RunLaunch(data, env).started
      ensures RunLaunch(data, env).outcome.Done? ==>
        values == defaults && notified == old(notified) + [RunLaunch(data, env).outcome.value] && logged == old(logged)
      ensures RunLaunch(data, env).outcome.Threw? ==>
        values == old(values) && notified == old(notified) && logged == old(logged) + [RunLaunch(data, env).outcome.error]
    {
      issued := issued + [CreateToken(data.params)];
      var token, _, _ := CreateTokenSc(env.wallet, data.params, env.mint);
      if token.Threw? {
        logged := logged + [token.error];
        return;
      }
      var mint := token.value;
      issued := issued + [CreateTelegramGroup(TelegramRequestFor(data, CA_PREFIX + mint))];
      var group := TelegramOutcome(env.telegram);
      if group.Threw? {
        logged := logged + [group.error];
        return;
      }
      issued := issued + [CreateMarket(mint)];
      if env.market.Threw? {
        logged := logged + [env.market.error];
        return;
      }
      var marketId := env.market.value;
      issued := issued + [CreateAmmPool(mint, marketId, BaseAmount(), QuoteAmount())];
      if env.pool.Threw? {
        logged := logged + [env.pool.error];
        return;
      }
      values := defaults;
      notified := notified + [mint];
    }

    /** The form's submit: validation first, then the submit handler on the current values. */
    method HandleSubmit(env: LaunchEnv)
      modifies this
      ensures AdminUsernameMissing(old(values)) ==>
        values == old(values) && issued == old(issued) && notified == old(notified) && logged == old(logged)
      ensures !AdminUsernameMissing(old(values)) ==>
        issued == old(issued) + RunLaunch(old(values), env).started
      ensures !AdminUsernameMissing(old(values)) && RunLaunch(old(values), env).outcome.Done? ==>
        && values == defaults
        && notified == old(notified) + [RunLaunch(old(values), env).outcome.value]
        && logged == old(logged)
      ensures !AdminUsernameMissing(old(values)) && RunLaunch(old(values), env).outcome.Threw? ==>
        && values == old(values) && notified == old(notified)
        && logged == old(logged) + [RunLaunch(old(values), env).outcome.error]
    {
      if AdminUsernameMissing(values) {
        return;
      }
      OnSubmit(values, env);
    }
  }
}
