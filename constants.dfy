/** Per-chain contract addresses (lib/constants.ts). The chain ids are those of the
    `mantle`, `mantleSepoliaTestnet`, `sonic` and `sonicBlazeTestnet` chain definitions
    of the viem library that the source imports. */
module Constants {
  import opened Common

  const MANTLE: int := 5000
  const MANTLE_SEPOLIA: int := 5003
  const SONIC: int := 146
  const SONIC_BLAZE: int := 57054

  const AGNI_ROUTER_ADDRESS: map<int, string> := map[
    MANTLE := "0x319B69888b0d11cEC22caA5034e25FfFBDc88421",
    MANTLE_SEPOLIA := "0xe38cfa32cCd918d94E2e20230dFaD1A4Fd8aEF16"
  ]

  const WRAPPED_NATIVE: map<int, string> := map[
    MANTLE := "0x78c1b0c915c4faa5fffa6cabf0219da63d7f4cb8",
    MANTLE_SEPOLIA := "0x67A1f4A939b477A6b7c5BF94D97E45dE87E608eF"
  ]

  const TOKEN_FACTORY_ADDRESS: map<int, string> := map[
    SONIC := "0x0000000000000000000000000000000000000000",
    SONIC_BLAZE := "0x4C617F49EA1dB6d1c8F50700B0AbA47a3EFC964f"
  ]

  /** `record[chainId]` on a JavaScript object: undefined for a chain without an entry. */
  function Lookup(record: map<int, string>, chainId: int): (r: Option<string>)
    ensures r.Some? <==> chainId in record
    ensures r.Some? ==> r.value == record[chainId]
  {
    if chainId in record then Some(record[chainId]) else None
  }
}
