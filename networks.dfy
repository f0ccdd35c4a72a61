/**
 * The static table of supported networks (`SUPPORTED_NETWORKS`), as a closed enumeration
 * and a total lookup, so that no unknown network key can occur.
 */
module Networks {
  import opened Collections

  datatype NetworkKey = ETHEREUM | POLYGON | ARBITRUM | OPTIMISM | BASE | POLYGON_ZKEVM

  datatype Descriptor = Descriptor(name: string, chainId: nat)

  function Describe(key: NetworkKey): Descriptor
  {
    match key
    case ETHEREUM => Descriptor("Ethereum", 1)
    case POLYGON => Descriptor("Polygon", 137)
    case ARBITRUM => Descriptor("Arbitrum", 42161)
    case OPTIMISM => Descriptor("Optimism", 10)
    case BASE => Descriptor("Base", 8453)
    case POLYGON_ZKEVM => Descriptor("Polygon zkEVM", 1101)
  }

  /** `Object.keys(SUPPORTED_NETWORKS)`: the table's keys in declaration order. */
  const AllNetworks: seq<NetworkKey> := [ETHEREUM, POLYGON, ARBITRUM, OPTIMISM, BASE, POLYGON_ZKEVM]

  /** The `mainNetworks` list the quick statistics use. */
  const QuickNetworks: seq<NetworkKey> := [ETHEREUM, ARBITRUM, POLYGON, OPTIMISM, BASE]

  /** Only the Ethereum and Polygon keys may ask for the internal-transfer category. */
  predicate SupportsInternal(key: NetworkKey)
  {
    key == ETHEREUM || key == POLYGON
  }

  /** The full list names every network exactly once. */
  lemma AllNetworksComplete()
    ensures Distinct(AllNetworks) && |AllNetworks| == 6
    ensures forall k: NetworkKey :: k in AllNetworks
  {
    forall k: NetworkKey ensures k in AllNetworks {
      match k
      case ETHEREUM => assert AllNetworks[0] == k;
      case POLYGON => assert AllNetworks[1] == k;
      case ARBITRUM => assert AllNetworks[2] == k;
      case OPTIMISM => assert AllNetworks[3] == k;
      case BASE => assert AllNetworks[4] == k;
      case POLYGON_ZKEVM => assert AllNetworks[5] == k;
    }
  }

  /** The quick list is the full list without the zk-rollup network, each key once. */
  lemma QuickNetworksSubset()
    ensures Distinct(QuickNetworks) && |QuickNetworks| == 5
    ensures forall k: NetworkKey :: k in QuickNetworks <==> k in AllNetworks && k != POLYGON_ZKEVM
  {
  }

  /** Chain identifiers identify networks: the table is injective. */
  lemma ChainIdsDistinct(a: NetworkKey, b: NetworkKey)
    ensures Describe(a).chainId == Describe(b).chainId ==> a == b
  {
  }
}
