/**
 * The collaborators the analysis cannot see: the per-network blockchain client and the
 * address-format check. Both are oracles: total functions supplied by whoever composes the
 * system, whose answers the model does not interpret.
 */
module Upstream {
  import opened Wrappers
  import opened Networks

  /** The transfer categories a probe may ask for. */
  datatype Category = External | Internal | Erc20 | Erc721 | Erc1155

  /** Which side of a transfer the wallet is on: `fromAddress` or `toAddress`. */
  datatype Direction = Outgoing | Incoming

  datatype SortOrder = Ascending | Descending

  /** The first element of a `maxCount: 1` transfer query; block numbers are already decoded. */
  datatype Transfer = Transfer(blockNum: nat, hash: string)

  /**
   * One upstream client per network. Every call may fail with a message, as a rejected
   * promise does.
   *   transactionCount(address, network)              -- `core.getTransactionCount`
   *   firstTransfer(address, network, dir, order, cs) -- `core.getAssetTransfers`, `maxCount: 1`
   *   blockTimestamp(network, block)                  -- `core.getBlock(block).timestamp`
   */
  datatype Client = Client(
    transactionCount: (string, NetworkKey) -> Result<nat, string>,
    firstTransfer: (string, NetworkKey, Direction, SortOrder, seq<Category>) -> Result<Option<Transfer>, string>,
    blockTimestamp: (NetworkKey, nat) -> Result<nat, string>)

  /** The injected capabilities: `ethers.isAddress` and the network client. */
  datatype Env = Env(isAddress: string -> bool, client: Client)
}
