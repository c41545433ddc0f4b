/** The token classification table of the concentrated-liquidity subgraph. */
module TokenType {
  import opened Strings

  // Token_Type codes (a plain table rather than an enum, so that they serialise as numbers).
  const VARA: int := -10
  const LSD: int := -1
  const NEAD: int := -2
  const OTHERS: int := 0
  const WETH: int := 1
  const LOOSE_STABLE: int := 2
  const STABLE: int := 3

  /** All seven codes, in declaration order. */
  const Codes: seq<int> := [VARA, LSD, NEAD, OTHERS, WETH, LOOSE_STABLE, STABLE]

  /** `token_type_dict`: symbols with a fixed classification. */
  const TokenTypeDict: map<string, int> := map[
    "gDAI" := LOOSE_STABLE, "LUSD" := LOOSE_STABLE, "ERN" := LOOSE_STABLE,
    "stERN" := LOOSE_STABLE, "DOLA" := LOOSE_STABLE, "MAI" := LOOSE_STABLE,
    "GRAI" := LOOSE_STABLE, "jEUR" := LOOSE_STABLE, "STAR" := LOOSE_STABLE,
    "USDC" := STABLE, "USDC.e" := STABLE, "USDT" := STABLE, "FRAX" := STABLE, "DAI" := STABLE,
    "frxETH" := LSD, "sfrxETH" := LSD, "stETH" := LSD, "wstETH" := LSD, "swETH" := LSD
  ]

  /** The two reference addresses as written, in checksum case. */
  const WethChecksum: string := "0x1a35EE4640b0A3B87705B0A4B45D227Ba60Ca2ad"
  const VaraChecksum: string := "0xE1da44C0dA55B075aE8E2e4b6986AdC76Ac77d73"

  const WethAddress: string := Lower(WethChecksum)
  const VaraAddress: string := Lower(VaraChecksum)

  /** The codes are pairwise distinct and OTHERS is 0. */
  lemma CodesDistinct()
    ensures forall i, j :: 0 <= i < j < |Codes| ==> Codes[i] != Codes[j]
    ensures OTHERS == 0
  {
  }

  /** Every listed symbol is a loose stable, a stable or a liquid-staking derivative; none is OTHERS. */
  lemma DictValues()
    ensures forall s :: s in TokenTypeDict ==> TokenTypeDict[s] in {LOOSE_STABLE, STABLE, LSD}
    ensures forall s :: s in TokenTypeDict ==> TokenTypeDict[s] != OTHERS
  {
  }

  /** The five dollar stablecoins are classified STABLE (code 3). */
  lemma StableSymbols()
    ensures forall s :: s in ["USDC", "USDC.e", "USDT", "FRAX", "DAI"] ==> s in TokenTypeDict && TokenTypeDict[s] == 3
  {
  }

  /** The two reference addresses are lower-case, so comparing them with lower-cased ids is exact. */
  lemma AddressesLower()
    ensures IsLower(WethAddress) && IsLower(VaraAddress)
    ensures Lower(WethAddress) == WethAddress && Lower(VaraAddress) == VaraAddress
    ensures |WethAddress| == 42 && |VaraAddress| == 42
  {
    ChecksumLengths();
    ChecksumLowered(WethChecksum);
    ChecksumLowered(VaraChecksum);
  }

  lemma ChecksumLengths()
    ensures |WethChecksum| == 42 && |VaraChecksum| == 42
  {
  }

  lemma ChecksumLowered(checksum: string)
    ensures IsLower(Lower(checksum)) && Lower(Lower(checksum)) == Lower(checksum) && |Lower(checksum)| == |checksum|
  {
    LowerIsLower(checksum);
  }
}
