/** Updates, requests, tokens and errors that travel between a sender and its consumers. */
module Types {
  import opened Bytes

  datatype Option<+T> = None | Some(value: T)

  datatype Reason =
    | NoWireTag
    | ShortFrame
    | OutOfBounds
    | BadBoolFlag
    | BadCompressionFlags
    | FrameSizeMismatch
    | RawSizeMismatch
    | NoSlotToken

  datatype Error =
    | UnexpectedEof
    | FrameTooLarge(size: nat)
    | PayloadTooLarge(found: nat, max: nat)
    | InvalidWireVersion(foundVersion: Byte, expectedVersion: Byte)
    | InvalidMessageTag(foundTag: Byte, expectedTag: Byte)
    | DecodeError
    | MalformedPayload(reason: Reason)
    | SlotsExhausted
    | ShmError
    | ShmFull
    | UdsError

  datatype Result<+T> = Ok(value: T) | Err(error: Error)

  type Pubkey = b: Bytes | |b| == 32 witness seq(32, _ => 0)
  type Signature = b: Bytes | |b| == 64 witness seq(64, _ => 0)

  datatype AccountUpdate = AccountUpdate(
    pubkey: Pubkey,
    owner: Pubkey,
    lamports: U64,
    executable: bool,
    rentEpoch: U64,
    slot: U64,
    writeVersion: U64,
    payload: Bytes)

  datatype TransactionUpdate = TransactionUpdate(
    slot: U64,
    index: U32,
    isVote: bool,
    signature: Signature,
    payload: Bytes)

  datatype SlotUpdate = SlotUpdate(slot: U64)

  datatype Update =
    | Account(account: AccountUpdate)
    | Transaction(transaction: TransactionUpdate)
    | Slot(slotUpdate: SlotUpdate)

  /** An update with the sender's creation time, as one frame carries both. */
  datatype Stamped<+T> = Stamped(update: T, stamp: U64)

  datatype SlotToken = SlotToken(slotIndex: nat, generation: nat)

  const SLOTS: nat := 10
  const IDLE_TIMEOUT_MS: nat := 30_000
  const MIN_CAPACITY: nat := 64

  /** Not seen for longer than the timeout; a clock that went backwards makes nothing stale. */
  predicate Stale(lastSeenMs: nat, now: nat) {
    now > lastSeenMs && now - lastSeenMs > IDLE_TIMEOUT_MS
  }

  datatype SubscriptionRequest = SubscriptionRequest(
    token: Option<SlotToken>,
    pubkeys: seq<Pubkey>,
    owners: seq<Pubkey>,
    includeTransactions: bool)

  datatype ClientFrame = Subscription(request: SubscriptionRequest) | PingFrame(token: SlotToken)

  /** Control replies; their bytes are another library's concern. */
  datatype ControlReply =
    | ConnectionReady(token: SlotToken)
    | ConnectionReadyShm(token: SlotToken)

  /** The foreign code the sender and consumer call. */
  datatype Env = Env(
    compress: Bytes -> Bytes,
    decompress: (Bytes, nat) -> Option<Bytes>,
    decodeControl: Bytes -> Result<ControlReply>,
    hash: (nat, Pubkey) -> nat)

  /** The one thing assumed of LZ4: decompressing what was compressed, given the original size. */
  ghost predicate Lz4Inverts(env: Env) {
    forall p: Bytes :: env.decompress(env.compress(p), |p|) == Some(p)
  }
}
