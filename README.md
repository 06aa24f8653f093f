# TrenchesAI launch, swap and chat-tool core in Dafny

TrenchesAI is a chat application. Its assistant can do several things:

- launch a Solana meme token;
- swap tokens on Mantle through the Agni DEX, and show a staking widget that only takes an
  amount (its submit does nothing);
- deploy a token through a factory contract on Sonic;
- extract swap requests and tweets through chat tools.

This project models the logic that the repository's components and hooks run around those
actions, and proves properties of that model:

- **Token launch** (`TokenForm`, `SolanaToken`): the launch form's submit handler runs four
  awaited steps:
  1. mint the token;
  2. create a Telegram group announcing the contract address;
  3. create an OpenBook market;
  4. create a Raydium AMM pool.

  The first step that throws ends the chain. The mint hook guards on the wallet, uploads the
  metadata and sends one three-instruction transaction. It returns the new mint address even
  when sending fails.
- **Chat transcript** (`Transcript`): the scanner that finds
  `<function name="…" parameters="…">` tags in a message, and the widget each call selects.
  It also covers the two transcript updates made by the launch form's callbacks and the
  memo comparator that decides re-rendering.
- **Swap pipeline** (`TokenApproval`, `AgniSwap`, `TokenFromSymbol`):
  - the cached ERC-20 allowance and the approval routine;
  - the swap mutation, which approves when the allowance is short, then calls
    `exactInputSingle` on the Agni router;
  - symbol-to-token resolution.
- **Widgets** (`AmountInput`, `SwapWidget`, `StakeWidget`):
  - the amount filter `^\d*(\.\d*)?$`;
  - the USD figures, truncated to cents;
  - the status lines, the form-card condition and the Swap-button rule.
- **On-chain factory** (`OnchainToken`): `ensureHttps` and the deploy mutation, which
  predicts the address, creates the token with the 0.0001 ether fee and reports success only
  for a successful receipt.
- **Chat tools** (`SwapRequest`, `Tweet`): the stream filter that writes swap requests and
  then a finish part, and tweet-id extraction with the tool's guard order.

## How the outside world enters the model

Every wallet, SDK, RPC, HTTP or model call becomes an `Outcome<T>` parameter:
`Done(value)` or `Threw(message)`. The parameters for one workflow are bundled in an `…Env`
datatype (`MintEnv`, `LaunchEnv`, `SwapEnv`, `ApprovalEnv`, `OnchainEnv`). Generated values
are parameters too:

- UUIDs and generated mint keys;
- token ids;
- the clock.

Library parsing is not modelled; its results are inputs:

- viem `parseUnits`;
- the BigNumber parse of an amount text (`SwapWidget.Decimal`);
- the widget query-string parser (`SwapParams`, `StakeParams`).

Where an operation changes state, it is imperative Dafny:

- a class with `modifies` for the launch form, the allowance hook, the two amount fields and
  the data stream;
- a method with a loop for the tag scanner and the swap-request stream.

Each such method is proved against a specification function. The specification function's
own `ensures` state the properties.

## Behaviour of the code worth knowing

- **A Telegram failure ends the launch.** The Telegram step is awaited like the others, so a
  failure there ends the launch chain before the market is created (`TokenForm.RunLaunch`).
- **A failed mint send is swallowed.** The mint hook catches a failed send and still returns
  the mint address (`SolanaToken.SendFailureIsSwallowed`).
- **The approval's receipt status is not checked.** The approval resolves with its hash as soon
  as the receipt arrives, whatever the receipt's status.
- **Cancelling never checks that the action exists.** Every cancel appends another
  "Action cancelled" message, even when nothing was removed (`Transcript.CancelTwice`).
- **The swap has no minimum-output guard.** The router call carries `amountOutMinimum = 0`.
  The quoted `minimumReceived` is parsed, and its parse may throw, but its value is unused.
- **An absent or zero amount, or an unknown symbol, fails silently.** The swap mutation
  resolves with undefined, and the widget shows "Cannot load token".
- **The "CA:" prefix is stored as mojibake.** The prefix in both source files is the four
  characters U+00F0 U+0178 U+0161 U+20AC, followed by " CA: ". Those four characters are the
  UTF-8 bytes of a rocket emoji read as Windows-1252. The model keeps those characters
  (`TokenForm.CA_PREFIX`).
- **`ensureHttps` is never called.** It is defined in lib/use-create-token-onchain.ts, and
  the model covers it as written.

## Model

| member | source | states |
|---|---|---|
| Constants.Lookup | lib/constants.ts:8-21 | A per-chain record gives the chain's address, or nothing for a chain it has no entry for |
| SolanaToken.MintedAmount | hooks/use-create-solana-token.ts:135-137 | The minted amount is 10^19 base units. It is a multiple of 2^19 with an odd part below 2^53, so the JavaScript number conversion is exact, and it fits in 64 bits |
| SolanaToken.MintTransaction | hooks/use-create-solana-token.ts:111-143 | The sent transaction has exactly three instructions, in order: createFungible (0 seller fee, 9 decimals), createTokenIfMissing, then mintTokensTo the owner's account for the whole supply. All three use the same mint |
| SolanaToken.MintOutcome | hooks/use-create-solana-token.ts:58-160 | It throws "Connection or address not found" without a connection or address, and "Public key not found" without a key. Upload and build errors are rethrown. Otherwise it resolves with the mint key, whatever the send does |
| SolanaToken.CreateTokenSc | hooks/use-create-solana-token.ts:52-161 | The mutation resolves as `MintOutcome`. The metadata upload happens exactly when both guards pass. A transaction is sent exactly when the mutation succeeds, and it is `MintTransaction` for the uploaded URI, the mint key and the wallet key |
| SolanaToken.SendFailureIsSwallowed | hooks/use-create-solana-token.ts:141-147 | Replacing a successful send by a failed one does not change what the mutation resolves with |
| TokenForm.Letters | components/create-token-form.tsx:149-150 | The symbol filter keeps exactly the ASCII letters: the result is all letters, has each letter as many times as the input and no other character, is no longer than the input, and leaves an all-letter input unchanged |
| TokenForm.LettersAppend | components/create-token-form.tsx:149-150 | Filtering a concatenation is filtering each part, so the letters keep their order |
| TokenForm.LettersIdempotent | components/create-token-form.tsx:149-150 | Filtering twice equals filtering once |
| TokenForm.DefaultValues | components/create-token-form.tsx:50-58 | Each token field defaults to its initial value, or "" when there is none. The admin username starts empty and the message is unset |
| TokenForm.BaseAmount | components/create-token-form.tsx:93-98 | The pool's base amount is exactly MINT_AMOUNT × 0.1 × 10^9 = 10^18, one tenth of the minted supply |
| TokenForm.QuoteAmount | components/create-token-form.tsx:99-103 | The pool's quote amount is 4 × 10^9 |
| TokenForm.TelegramRequestFor | components/create-token-form.tsx:66-75 | The Telegram body carries the form's name, description, admin username and image URL, with the message replaced |
| TokenForm.TelegramOutcome | components/create-token-form.tsx:64-79 | The Telegram step succeeds exactly when the fetch and the JSON read succeed. The HTTP status is not looked at |
| TokenForm.RunLaunch | components/create-token-form.tsx:82-113 | The steps started are a non-empty prefix of mint, Telegram, market, pool. Each step starts only after every earlier one resolved. The chain stops at the first throw, with that error. It succeeds exactly when all four resolve, and then yields the mint address. The Telegram message is the CA prefix plus the mint. Market and pool receive the mint, the market id and the pool amounts |
| TokenForm.CreateTokenForm.constructor | components/create-token-form.tsx:50-58 | The form starts at `DefaultValues`, with nothing started, notified or logged |
| TokenForm.CreateTokenForm.OnSymbolChange | components/create-token-form.tsx:143-151 | An edit stores `Letters` of the typed text in the symbol field only. The stored symbol is never longer than the typed text, so an edit within the input's five-character limit stays within it |
| TokenForm.CreateTokenForm.OnSubmit | components/create-token-form.tsx:82-113 | The submit handler starts the steps of `RunLaunch`. On success it resets the form to its defaults and notifies the mint address once. On failure it logs the error and leaves the values alone |
| TokenForm.CreateTokenForm.HandleSubmit | components/create-token-form.tsx:201-207 | An empty admin username blocks submission with no effect. Otherwise the launch of `RunLaunch` runs on the current values: on success the form resets to its defaults and the mint address is notified once; on failure the values stay and the error is logged |
| Transcript.NextTag | components/message.tsx:50 | It finds the leftmost `<function[^>]*>` match at or after a position: `<function`, then no `>` until the closing `>`. No match is skipped |
| Transcript.FindAttr | components/message.tsx:54-55 | It finds the leftmost position where `key="` is followed by at least one character before a quote |
| Transcript.AttrValue | components/message.tsx:54-55 | The captured attribute value is non-empty and quote-free, and stands in the tag between `key="` and a closing quote at the leftmost match |
| Transcript.CallOf | components/message.tsx:53-62 | A tag yields a call exactly when it has both a name and a parameters attribute |
| Transcript.CallsFrom | components/message.tsx:48-66 | The calls of the tags at or after a position are well formed, and there are no more of them than characters |
| Transcript.ParseFunctionCalls | components/message.tsx:48-66 | The loop returns exactly `CallsFrom(content, 0)`, in order. It returns null rather than an empty list when no tag qualifies |
| Transcript.NoTagNoCalls | components/message.tsx:50-65 | A content without `<function` yields no calls |
| Transcript.WidgetFor | components/message.tsx:137-147 | swap_token, stake_token and bridge_token select their widget with the call's parameters. Any other name renders nothing |
| Transcript.WidgetsFor | components/message.tsx:135-150 | Every rendered widget comes from a call, and every call with a known name is rendered |
| Transcript.WidgetsForAppend | components/message.tsx:135-150 | Rendering a concatenation of calls renders each part, so the widgets follow the calls' order |
| Transcript.WidgetsForSingle | components/message.tsx:137-147 | One call renders exactly its own widget, or nothing for an unknown name |
| Transcript.BodyOf | components/message.tsx:135-153 | Empty content shows nothing. Content with calls shows their widgets. Content without calls is shown as Markdown |
| Transcript.MessageFunctions | components/message.tsx:68-71 | Only text content is scanned; other content yields null |
| Transcript.LaunchedMessage | components/message.tsx:197-210 | The success message is an assistant message with the CA prefix and the backquoted address. It has one addLiquidity invocation in the result state, with the token address as its argument and no result value |
| Transcript.OnSuccess | components/message.tsx:195-218 | It appends exactly one message at the end and leaves earlier messages unchanged. Only the new message is persisted |
| Transcript.RemoveCall | components/message.tsx:227-231 | No invocation with the call id remains. Every other invocation is kept as often as before. Nothing changes when none matches |
| Transcript.RemoveCallAppend | components/message.tsx:227-231 | The filter distributes over concatenation, so the kept invocations stay in order |
| Transcript.WithoutCall | components/message.tsx:222-234 | Only the tool invocations of the message change. A message without invocations keeps none |
| Transcript.OnCancel | components/message.tsx:219-249 | Messages with the form's id lose the cancelled invocation, and all others are unchanged. Exactly one "Action cancelled" message is appended. The whole list is persisted |
| Transcript.CancelTwice | components/message.tsx:236-247 | A second cancel strips nothing more but appends a second "Action cancelled" message |
| Transcript.SkipRerender | components/message.tsx:303-319 | The memo comparator skips a re-render exactly when the old and new props differ at most in the chat id, the read-only flag and the message's id, role and creation time. Invocations are compared whole, results included |
| Transcript.ResultChangeRerenders | components/message.tsx:309-311 | A change in one invocation's result alone re-renders, because the invocations are compared deeply |
| Transcript.UnwatchedChangesSkip | components/message.tsx:303-319 | Changing the chat id, the read-only flag or the message's id, role or creation time never re-renders |
| Transcript.WatchedChangesRerender | components/message.tsx:303-319 | Changing the loading flag, the content, the invocations or the vote always re-renders |
| Transcript.CancelRerendersOnlyWhenStripped | components/message.tsx:305-314 | A cancel re-renders the form's message exactly when it removed an invocation |
| TokenApproval.Owner | hooks/use-token-approval.ts:7 | The owner is the account address, or the zero address without one |
| TokenApproval.EnabledWithDefaultOwner | hooks/use-token-approval.ts:11-14 | With the default owner, the allowance query runs exactly when token and spender are set |
| TokenApproval.NeedsApproval | hooks/use-token-approval.ts:31-37 | It is false for an absent or zero amount and for an unknown allowance. Otherwise it is true exactly when the allowance is below the amount |
| TokenApproval.NeedsApprovalScenarios | hooks/use-token-approval.ts:33-34 | 50 for 100 needs approval; 200 for 100 and 100 for 100 do not. Needing approval is monotone in the amount |
| TokenApproval.ApproveRequest | hooks/use-token-approval.ts:42-52 | The approve call is made exactly when token and spender are non-empty and the amount is non-zero, and it carries those three values |
| TokenApproval.NeedsApprovalPassesGuard | hooks/use-token-approval.ts:33-44 | When a cached allowance is short, the approval guard passes |
| TokenApproval.ApproveOutcome | hooks/use-token-approval.ts:46-61 | The approval resolves with the hash as soon as the receipt arrives, whatever its status. A write or wait error is rethrown |
| TokenApproval.TokenApprovalHook.constructor | hooks/use-token-approval.ts:7-28 | The allowance is known only when the query is enabled |
| TokenApproval.TokenApprovalHook.Approve | hooks/use-token-approval.ts:40-64 | It throws "Missing required parameters for approval" before any call when its guard fails. Otherwise it writes `approve(spender, amount)` and resolves as `ApproveOutcome`. After the receipt it refreshes the cached allowance, or keeps the old value when the refetch fails. An allowance is only ever cached for a set token and spender |
| AgniSwap.TokenIn | hooks/use-agni-swap.ts:17-19 | tokenIn is the chain's wrapped native token (Mantle's without a chain) for a native source, and otherwise the source token's address |
| AgniSwap.SwapCallFor | hooks/use-agni-swap.ts:50-78 | The call goes to the chain's Agni router with fee 500, the caller as recipient, amountIn = input, amountOutMinimum = 0, sqrtPriceLimitX96 = 0 and a deadline 300 s after now (rounded down to seconds). Native value equal to amountIn is attached exactly when tokenIn is the chain's wrapped native token, always for a native source |
| AgniSwap.SwapRunFor | hooks/use-agni-swap.ts:28-91 | Nothing is sent, and the result is undefined, without a quote, address or chain, or without a non-zero input. A failed parse of the input is rethrown. When the allowance is short, the approval is sent first, and its failure (or its guard's) is rethrown without a swap. Otherwise the swap is sent with `SwapCallFor`'s fields, after the approval if any. A failed write, receipt wait or parse of the minimum is rethrown. A successful receipt resolves with `Receipt(hash, success)`, a reverted one with undefined |
| AgniSwap.ApprovalExactlyWhenShort | hooks/use-agni-swap.ts:44-48 | Given the hook's invariant, an approval is submitted exactly when the cached allowance is short of the input |
| AgniSwap.SwapSucceeds | hooks/use-agni-swap.ts:44-90 | Given the hook's invariant, a ready quote with a non-zero input whose approval, write and receipt succeed is swapped: the swap is the last transaction sent and the mutation resolves with its receipt |
| AgniSwap.Swap | hooks/use-agni-swap.ts:27-92 | The mutation submits the transactions, and resolves with the value, of `SwapRunFor` for the allowance cached when it starts. It keeps the hook's invariant. The cached allowance changes only after a sent approval that succeeded and whose refetch returned, and then holds the refetched value |
| TokenFromSymbol.ToLower | hooks/use-token-from-symbol.ts:17 | Lower-casing maps each character, changing only ASCII capitals |
| TokenFromSymbol.FirstMatch | hooks/use-token-from-symbol.ts:15-18 | It finds the index of the first token whose symbol equals the query up to case, or nothing exactly when no token matches |
| TokenFromSymbol.FindBySymbol | hooks/use-token-from-symbol.ts:15-19 | A found token has a symbol, matches, and is in the list. The result is null exactly when no token matches |
| TokenFromSymbol.FindConcat | hooks/use-token-from-symbol.ts:12-18 | Searching a concatenation searches the first list, and the second list only when the first has no match |
| TokenFromSymbol.LookupSymbol | hooks/use-token-from-symbol.ts:9-22 | The query is disabled exactly when the symbol is empty or absent, and a failed fetch fails it. A token-list match wins over a system token; otherwise the system tokens are searched |
| TokenFromSymbol.CaseInsensitiveMatch | hooks/use-token-from-symbol.ts:16-17 | "mnt" finds a token with symbol "MNT", passing over a token without a symbol |
| AmountInput.IsAmountText | components/ui/swap-widget.tsx:144-145 | The test accepts exactly the texts `^\d*(\.\d*)?$` matches (digits, optionally a dot and more digits), which are exactly the texts of digits and dots with at most one dot |
| AmountInput.AmountTextExamples | components/ui/stake-widget.tsx:53-54 | "", "12.5", "." and "5." pass; "1.2.3", "-1" and "1e5" do not |
| SwapWidget.TruncateToHundredths | components/ui/swap-widget.tsx:53 | `toFixed(2, ROUND_DOWN)` gives the hundredths truncated toward zero |
| SwapWidget.UsdValue | components/ui/swap-widget.tsx:50-61 | An empty amount shows the spinner. A non-number shows "NaN". Otherwise the figure is amount × price truncated to cents, and 0.00 without a price |
| SwapWidget.StatusLines | components/ui/swap-widget.tsx:72-118 | Exactly one of "Loading", "Cannot load" and "Loaded" is shown. Loading shows exactly while pending, Loaded exactly when done and present |
| SwapWidget.Render | components/ui/swap-widget.tsx:50-220 | Each token and the quote get one status line. The form card is shown exactly when both tokens resolved. The sell figure is `UsdValue` of the typed amount at token0's price, the buy amount is the quoted token1 amount, and the buy figure is `UsdValue` of it at token1's price (both without a price while the quote is missing). The Swap button is disabled exactly when the quote cannot swap or is pending |
| SwapWidget.SwapButtonRule | components/ui/swap-widget.tsx:218-220 | With both tokens loaded, the button is enabled exactly when the quote can swap and is not pending |
| SwapWidget.SwapForm.constructor | components/ui/swap-widget.tsx:26-29 | The amount field starts at the parameters' amount |
| SwapWidget.SwapForm.OnChange | components/ui/swap-widget.tsx:142-147 | An edit is stored exactly when it passes the amount pattern. Otherwise the field keeps its value |
| StakeWidget.StakeForm.constructor | components/ui/stake-widget.tsx:21-24 | The amount field starts at the parameters' amount |
| StakeWidget.StakeForm.OnChange | components/ui/stake-widget.tsx:51-56 | An edit is stored exactly when it passes the amount pattern. Otherwise the field keeps its value |
| StakeWidget.StakeForm.OnSubmit | components/ui/stake-widget.tsx:28 | Submitting changes nothing |
| OnchainToken.EnsureHttps | lib/use-create-token-onchain.ts:14-20 | A missing or empty URL gives nothing. A URL with an http(s) scheme is unchanged. Any other URL gets "https://" in front. Every result has an http(s) scheme |
| OnchainToken.EnsureHttpsIdempotent | lib/use-create-token-onchain.ts:14-20 | Applying it twice equals applying it once |
| OnchainToken.CreationFeeIsTenThousandthEther | lib/use-create-token-onchain.ts:54 | The creation fee of 10^14 wei is 0.0001 ether |
| OnchainToken.OnchainRunFor | lib/use-create-token-onchain.ts:28-73 | An empty name or symbol, or a missing chain, throws "Token name and symbol are required" before any call. Past the guard, getMemeAddress is called once the token id exists, and createMeme follows on the same factory, with the same token id and the fee, once the address is predicted. Any failure becomes "Failed to deploy token: Unknown error". A successful receipt reports a deployment with the write's hash and the predicted address; a reverted receipt resolves with undefined |
| OnchainToken.DeploySucceedsExactly | lib/use-create-token-onchain.ts:28-73 | A deployment is reported exactly when the guard passes and the token id, the prediction, the write and a successful receipt all arrive; it carries the predicted address, after both factory calls |
| OnchainToken.CreateTokenOnchain | lib/use-create-token-onchain.ts:28-73 | The mutation makes the calls of `OnchainRunFor` and resolves with its outcome |
| SwapRequest.SwapRequests | lib/ai/tools/get-swap-request.ts:42-64 | Every request has non-empty symbols and a non-zero amount. There are no more requests than deltas, and none exactly when no delta qualifies |
| SwapRequest.SwapRequestsAppend | lib/ai/tools/get-swap-request.ts:42-64 | The requests of a concatenated stream are each part's requests, in stream order |
| SwapRequest.SwapRequestsSingle | lib/ai/tools/get-swap-request.ts:45-62 | A qualifying object delta yields exactly one request with its three values. Any other delta yields none |
| SwapRequest.DataStreamWriter.constructor | lib/ai/tools/get-swap-request.ts:15-19 | The data stream handed to the tool starts with no parts |
| SwapRequest.DataStreamWriter.WriteData | lib/ai/tools/get-swap-request.ts:54-61 | Writing appends exactly the one part to the stream |
| SwapRequest.Execute | lib/ai/tools/get-swap-request.ts:26-83 | The data stream receives `SwapRequests` of the stream, then exactly one finish part. The result is always the generated id with "A swap request was created." |
| Tweet.TweetId | lib/ai/tools/get-tweet.ts:13 | The id contains no "/". It is a suffix of the URL, either the whole URL or preceded by "/". A URL without "/" is its own id |
| Tweet.TweetIdAfterLastSlash | lib/ai/tools/get-tweet.ts:13 | Everything after the last "/" is the id, including any query string or fragment |
| Tweet.GetTweet | lib/ai/tools/get-tweet.ts:11-42 | An empty id returns "Tweet ID is not found in the url" before the credentials are checked. Missing credentials throw. An API failure returns "Error getting tweet". Otherwise the tweet text is returned. Only missing credentials throw |

## Left out

- Wallet, RPC, SDK and HTTP internals. The Metaplex/umi builders, Raydium market and pool
  creation, the Agni SDK quote, wagmi reads, writes and receipt waits, `fetch`/axios, the
  Twitter client and the language model's `streamObject` appear only through their
  outcomes.
- hooks/use-create-market.ts, hooks/use-create-amm-pool.ts, hooks/use-agni-swap-info.ts and
  the other wrapper hooks are not part of this model. Their results are the `Outcome`
  parameters above.
- Toasts, console logging, the 5-second `sleep` after a deployment, animations and styling
  are left out. None of them changes an outcome.
- Rendering beyond the decisions modelled is left out, including:
  - the Cancel buttons of both widgets, which have no handler;
  - the stake card, which is always shown;
  - the launch form's button labels;
  - the edit mode, the attachments and the tool-result cards other than the launch form's
    two callbacks.
- The swap widget's `onSubmit`, which only awaits the swap mutation, is covered by
  `AgniSwap.Swap` and has no member of its own.
- React state and query caching are left out: re-fetch timing, `staleTime`, concurrent
  `setMessages` updates. Each update is one atomic transform of the message list.
- TokenForm.CreateTokenForm.OnSymbolChange: the input's `maxLength` of five is not modelled, because it limits only insertions; a deletion from a longer initial symbol reaches the handler unchanged.
- TokenFromSymbol.ToLower: lower-cases ASCII capitals only; `toLowerCase` also folds
  non-ASCII letters.
- TokenForm.RunLaunch: assumes `new PublicKey(mint)` does not throw, because the mint
  address comes from a freshly generated signer.
- Tweet.GetTweet: one outcome stands for both the app login and the tweet lookup. A response
  without `data.text` counts as a failure.
- AgniSwap.SwapRunFor: assumes the allowance hook was created for this quote's token and
  spender, as the mutation's own hook is. When a cached allowance is short, the approval's
  guard therefore never fires.
- The empty `session.user?.id` branch of the swap-request tool is left out, because it does
  nothing.
- Floating-point amounts are modelled as exact reals, and BigNumber and bigint values as
  unbounded integers.
