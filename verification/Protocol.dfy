/** Wire entities shared by the session store and the HyperSync source engine
    (crates/protocol/proto/evm_fork_cache_events_v1.proto). */
module Protocol {
  const U64_MAX: int := 0xFFFF_FFFF_FFFF_FFFF
  const I64_MAX: int := 0x7FFF_FFFF_FFFF_FFFF
  const PROTOCOL_VERSION := 1
  /** Largest frame the transport carries: 32 MiB. */
  const MAX_MESSAGE_SIZE_BYTES := 32 * 1024 * 1024

  type u64 = x: int | 0 <= x <= 0xFFFF_FFFF_FFFF_FFFF
  type byte = x: int | 0 <= x < 256
  type Bytes = seq<byte>

  datatype Option<+T> = None | Some(value: T)

  datatype Result<+T, +E> = Ok(value: T) | Err(error: E)

  /** Chains two optional values, the first one winning. */
  function OrElse<T>(first: Option<T>, second: Option<T>): Option<T> {
    if first.Some? then first else second
  }

  datatype BlockRef = BlockRef(number: u64, hash: Bytes, parentHash: Bytes, timestamp: u64)

  /** Both hashes have the consensus width. */
  predicate BlockRefOk(b: BlockRef) {
    |b.hash| == 32 && |b.parentHash| == 32
  }

  /** `b` is the direct child of `a`. */
  predicate Follows(a: BlockRef, b: BlockRef) {
    b.number == a.number + 1 && b.parentHash == a.hash
  }

  /** Consecutive heights joined by parent hashes. */
  ghost predicate Linked(s: seq<BlockRef>) {
    forall i :: 0 <= i < |s| - 1 ==> Follows(s[i], s[i + 1])
  }

  datatype Cursor = Cursor(
    chainId: u64,
    queryRevision: u64,
    nextBlock: u64,
    canonicalHead: Option<BlockRef>,
    batchSequence: u64,
    providerCheckpoint: Bytes,
    activationBoundary: Option<u64>)

  datatype LogEvent = LogEvent(
    address: Bytes,
    topics: seq<Bytes>,
    data: Bytes,
    blockNumber: u64,
    blockHash: Bytes,
    transactionHash: Bytes,
    transactionIndex: u64,
    logIndex: u64,
    blockTimestamp: u64,
    removed: bool)

  datatype ChainEvent =
    | Log(log: LogEvent)
    | BlockHeader(header: Option<BlockRef>, headerRlp: Bytes, totalDifficulty: Bytes, size: Bytes)
    | BlockProgress(progress: Option<BlockRef>)

  /** Delivery scopes travel as raw enum numbers; anything else is unknown. */
  const SCOPE_UNSPECIFIED := 0
  const SCOPE_CANONICAL := 1
  const SCOPE_CANONICAL_PROGRESS := 2
  const SCOPE_OWNER_CATCHUP := 3

  datatype EventRecord = EventRecord(
    event: Option<ChainEvent>,
    canonicalAudience: bool,
    ownerIds: seq<string>,
    scope: int)

  datatype Payload =
    | Data(records: seq<EventRecord>)
    | Reorg(commonAncestor: Option<BlockRef>, oldTip: Option<BlockRef>, newTip: Option<BlockRef>)
    | Finality(kind: int, block: Option<BlockRef>)
    | Barrier(id: string, at: Option<BlockRef>)

  datatype Delivery = Delivery(
    sessionId: string,
    sequence: u64,
    queryRevision: u64,
    token: Bytes,
    cursor: Option<Cursor>,
    payload: Option<Payload>,
    checkpointNeutral: bool)

  datatype Acknowledge = Acknowledge(sessionId: string, sequence: u64, token: Bytes)

  datatype Backfill = Backfill(fromBlock: u64, toBlockExcl: Option<u64>, retainedBaseline: Option<BlockRef>)

  datatype Interest =
    | LogInterest(addresses: seq<Bytes>, topics: seq<seq<Bytes>>)
    | BlockInterest(mode: int)
    | MissingKind

  datatype OwnerInterests = OwnerInterests(
    ownerId: string,
    interests: seq<Interest>,
    backfill: Option<Backfill>,
    canonical: bool)

  datatype DesiredState = DesiredState(
    protocolVersion: int,
    sessionId: string,
    chainId: u64,
    expectedRevision: u64,
    newRevision: u64,
    owners: seq<OwnerInterests>)

  /** Big-endian encoding of `x` on `width` bytes. */
  function BeBytes(x: nat, width: nat): (bs: Bytes)
    ensures |bs| == width
  {
    if width == 0 then [] else BeBytes(x / 256, width - 1) + [x % 256]
  }

  /** Protocol v1 delivery token: the big-endian sequence. */
  function Token(sequence: u64): Bytes {
    BeBytes(sequence, 8)
  }

  /** Decimal digits of `n`. */
  function Decimal(n: nat): (s: string)
    ensures |s| > 0
  {
    if n < 10 then ["0123456789"[n]] else Decimal(n / 10) + ["0123456789"[n % 10]]
  }

  function ActivationId(revision: u64): string {
    "desired-state:" + Decimal(revision)
  }

  function ProgressId(revision: u64, nextBlock: u64): string {
    "source-progress:" + Decimal(revision) + ":" + Decimal(nextBlock)
  }

  predicate BackfillContains(b: Option<Backfill>, number: u64) {
    b.Some? && b.value.fromBlock <= number &&
    (b.value.toBlockExcl.Some? ==> number < b.value.toBlockExcl.value)
  }

  predicate BackfillOk(b: Backfill) {
    && (b.toBlockExcl.Some? ==>
          && b.fromBlock <= b.toBlockExcl.value
          && (b.toBlockExcl.value == b.fromBlock ==> b.retainedBaseline.Some?))
    && (b.retainedBaseline.Some? ==>
          && b.retainedBaseline.value.number + 1 == b.fromBlock
          && BlockRefOk(b.retainedBaseline.value))
  }

  predicate InterestOk(i: Interest) {
    match i
    case LogInterest(addresses, topics) =>
      && (forall a | a in addresses :: |a| == 20)
      && |topics| <= 4
      && (forall values | values in topics :: forall t | t in values :: |t| == 32)
    case BlockInterest(mode) => mode == 1
    case MissingKind => false
  }

  predicate OwnerOk(o: OwnerInterests) {
    && (o.canonical <==> o.ownerId == "")
    && (o.backfill.Some? ==> BackfillOk(o.backfill.value))
    && (forall i | i in o.interests :: InterestOk(i))
  }

  /** What `validate_desired_state` accepts: one canonical entry at most, owner
      identifiers present and distinct, well-formed filters and backfills. */
  predicate DesiredStateOk(ds: DesiredState) {
    && ds.protocolVersion == PROTOCOL_VERSION
    && ds.sessionId != ""
    && ds.expectedRevision < U64_MAX
    && (forall o | o in ds.owners :: OwnerOk(o))
    && (forall i, j :: 0 <= i < j < |ds.owners| ==> ds.owners[i].ownerId != ds.owners[j].ownerId)
  }
}
