/** The values a seed scanner receives from the consensus set: output diffs,
    processed block headers, header-level consensus changes, and the
    subscription that delivers them. Hashes are opaque byte strings; only
    their equality matters here. */
module Consensus {

  datatype Option<+T> = None | Some(value: T)

  type Hash = seq<bv8>

  /** types.UnlockHash: an address, and the bytes kept in keysArray. */
  type Address = Hash
  type OutputId = Hash
  type BlockId = Hash
  type ConsensusChangeId = Hash
  /** The bytes of a block's GCS filter. */
  type Filter = seq<bv8>

  /** Go's uint64. */
  const U64: nat := 0x1_0000_0000_0000_0000
  type Uint64 = x: nat | x < U64

  /** modules.ConsensusChangeBeginning: the all-zero cursor. */
  const ConsensusChangeBeginning: ConsensusChangeId := seq(32, _ => 0 as bv8)

  datatype Direction = DiffApply | DiffRevert

  /** modules.SiacoinOutputDiff, with the output's value and unlock hash inlined. */
  datatype OutputDiff = OutputDiff(direction: Direction, id: OutputId, value: nat, unlockHash: Address)

  /** modules.ProcessedBlockHeader: the header's ID (its hash, computed
      outside this model), its height and its filter. */
  datatype ProcessedBlockHeader = ProcessedBlockHeader(id: BlockId, height: nat, filter: Filter)

  /** modules.HeaderConsensusChange. */
  datatype HeaderConsensusChange = HeaderConsensusChange(
    id: ConsensusChangeId,
    revertedBlockHeaders: seq<ProcessedBlockHeader>,
    appliedBlockHeaders: seq<ProcessedBlockHeader>,
    maturedSiacoinOutputDiffs: seq<OutputDiff>)

  /** getSiacoinOutputDiff: the full output diffs of a block in a direction.
      Its error path panics in the source, so it is total here. */
  type Fetcher = (BlockId, Direction) -> seq<OutputDiff>

  /** GCSFilter.MatchUnlockHash(blockID, keysArray): an approximate
      membership test whose internals are outside this model. */
  type FilterMatcher = (Filter, BlockId, seq<Address>) -> bool

  /** The error returned by HeaderConsensusSetSubscribe; Ok is nil. */
  datatype SubscribeResult = Ok | ErrStopped | Err(code: nat)

  /** The cancel channel handed to a subscription: the one the caller of
      scan passed in, or the legacy scanner's own. */
  datatype CancelSignal = CallerCancel | ScannerCancel

  /** What one blocking HeaderConsensusSetSubscribe call does as seen by its
      subscriber: the changes it delivers, in order, and the error it returns
      once it stops delivering, unless the subscriber closes the cancel
      channel it was given. */
  datatype Subscription = Subscription(changes: seq<HeaderConsensusChange>, result: SubscribeResult)

  datatype ConsensusSet = ConsensusSet(
    subscribe: (ConsensusChangeId, CancelSignal) -> Subscription,
    fetch: Fetcher)
}
