/** The token-minting mutation (hooks/use-create-solana-token.ts): after guarding on the
    wallet context it uploads the token metadata, builds one transaction holding the
    createFungible, createTokenIfMissing and mintTokensTo instructions, sends it, and
    returns the freshly generated mint address. A failure of the send itself is swallowed. */
module SolanaToken {
  import opened Common

  const TOKEN_DECIMALS: nat := 9
  const MINT_AMOUNT: nat := 10_000_000_000

  const CONNECTION_ERROR: string := "Connection or address not found"
  const PUBLIC_KEY_ERROR: string := "Public key not found"

  datatype TokenParams = TokenParams(name: string, symbol: string, description: string, url: string)

  /** What the hook reads from the wallet kit: the RPC connection (its endpoint), the
      connected account's address and the wallet provider's public key. */
  datatype WalletContext = WalletContext(connection: Option<string>, address: Option<string>, publicKey: Option<string>)

  /** The body posted to the metadata storage route. */
  datatype MetadataRequest = MetadataRequest(name: string, symbol: string, description: string, image: string)

  datatype Instruction =
    | CreateFungible(mint: string, name: string, uri: string, sellerFeeBasisPoints: nat, decimals: nat, symbol: string)
    | CreateTokenIfMissing(mint: string, owner: string)
    | MintTokensTo(mint: string, owner: string, amount: nat)

  /** How the calls the hook makes turn out: the metadata upload (resolving to the stored
      document's URL), the public key of the freshly generated mint signer, building the
      createFungible instruction, and sending the combined transaction. */
  datatype MintEnv = MintEnv(upload: Outcome<string>, mintKey: string, build: Outcome<Unit>, send: Outcome<string>)

  /** The first guard: a connection and a non-empty address. */
  predicate Connected(w: WalletContext) {
    w.connection.Some? && Truthy(w.address)
  }

  /** The amount minted to the creator, in base units: MINT_AMOUNT whole tokens of
      TOKEN_DECIMALS decimals. The source passes it through a JavaScript number; it is a
      multiple of 2^19 whose odd part is below 2^53, so that conversion is exact, and it
      fits the 64-bit amount field of the token program. */
  function MintedAmount(): (r: nat)
    ensures r == 10_000_000_000_000_000_000
    ensures r % 0x8_0000 == 0 && r / 0x8_0000 < 0x20_0000_0000_0000
    ensures r < 0x1_0000_0000_0000_0000
  {
    MINT_AMOUNT * Pow10(TOKEN_DECIMALS)
  }

  /** The transaction the hook sends: create the fungible token with 9 decimals and no
      seller fee, create the owner's token account if missing, then mint the whole supply
      into it. */
  function MintTransaction(p: TokenParams, uri: string, mint: string, owner: string): (r: seq<Instruction>)
    ensures |r| == 3
    ensures r[0].CreateFungible? && r[1].CreateTokenIfMissing? && r[2].MintTokensTo?
    ensures r[0] == CreateFungible(mint, p.name, uri, 0, 9, p.symbol)
    ensures forall i :: 0 <= i < |r| ==> r[i].mint == mint
    ensures r[1].owner == owner && r[2].owner == owner
    ensures r[2].amount == 10_000_000_000_000_000_000
  {
    [ CreateFungible(mint, p.name, uri, 0, TOKEN_DECIMALS, p.symbol),
      CreateTokenIfMissing(mint, owner),
      MintTokensTo(mint, owner, MintedAmount()) ]
  }

  /** What the mutation resolves with or throws. The send outcome plays no part in it. */
  function MintOutcome(w: WalletContext, env: MintEnv): (r: Outcome<string>)
    ensures !Connected(w) ==> r == Threw(CONNECTION_ERROR)
    ensures Connected(w) && w.publicKey.None? ==> r == Threw(PUBLIC_KEY_ERROR)
    ensures r.Done? <==> Connected(w) && w.publicKey.Some? && env.upload.Done? && env.build.Done?
    ensures r.Done? ==> r.value == env.mintKey
    ensures Connected(w) && w.publicKey.Some? && env.upload.Threw? ==> r == Threw(env.upload.error)
    ensures Connected(w) && w.publicKey.Some? && env.upload.Done? && env.build.Threw? ==> r == Threw(env.build.error)
  {
    if !Connected(w) then Threw(CONNECTION_ERROR)
    else if w.publicKey.None? then Threw(PUBLIC_KEY_ERROR)
    else match env.upload
      case Threw(e) => Threw(e)
      case Done(_) =>
        match env.build
        case Threw(e) => Threw(e)
        case Done(_) => Done(env.mintKey)
  }

  /** The mutation function. `upload` is the metadata request posted (if any) and `sent`
      the transaction handed to the send call (if any). */
  method CreateTokenSc(w: WalletContext, p: TokenParams, env: MintEnv)
    returns (r: Outcome<string>, upload: Option<MetadataRequest>, sent: Option<seq<Instruction>>)
    ensures r == MintOutcome(w, env)
    ensures upload.Some? <==> Connected(w) && w.publicKey.Some?
    ensures upload.Some? ==> upload.value == MetadataRequest(p.name, p.symbol, p.description, p.url)
    ensures sent.Some? <==> r.Done?
    ensures sent.Some? ==> sent.value == MintTransaction(p, env.upload.value, env.mintKey, w.publicKey.value)
  {
    upload, sent := None, None;
    if !Connected(w) {
      return Threw(CONNECTION_ERROR), upload, sent;
    }
    if w.publicKey.None? {
      return Threw(PUBLIC_KEY_ERROR), upload, sent;
    }
    var owner := w.publicKey.value;
    upload := Some(MetadataRequest(p.name, p.symbol, p.description, p.url));
    if env.upload.Threw? {
      // rethrown after the error toast
      return Threw(env.upload.error), upload, sent;
    }
    var uri := env.upload.value;
    var mint := env.mintKey;
    if env.build.Threw? {
      return Threw(env.build.error), upload, sent;
    }
    var tx := MintTransaction(p, uri, mint, owner);
    sent := Some(tx);
    // a failed send is logged and skipped: the mint address is returned either way
    r := Done(mint);
  }

  /** Whether the send succeeds or fails, the mutation resolves with the same value. */
  lemma SendFailureIsSwallowed(w: WalletContext, env: MintEnv, e: string)
    requires env.send.Done?
    ensures MintOutcome(w, env.(send := Threw(e))) == MintOutcome(w, env)
    ensures MintOutcome(w, env).Done? ==> MintOutcome(w, env.(send := Threw(e))) == Done(env.mintKey)
  {
  }
}
