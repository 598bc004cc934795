/** The hand-written binary codecs of account, transaction and slot updates. */
module Codec {
  import opened Bytes
  import opened Types

  const UPDATE_TAG: Byte := 2
  const READY_TAG: Byte := 3
  const READY_SHM_TAG: Byte := 5
  const TRANSACTION_UPDATE_TAG: Byte := 6
  const SLOT_UPDATE_TAG: Byte := 7
  const WIRE_VERSION: Byte := 9
  const MAX_ACCOUNT_PAYLOAD_BYTES: nat := 10 * 1024 * 1024
  const MAX_TRANSACTION_PAYLOAD_BYTES: nat := 10 * 1024 * 1024
  const COMPRESSION_THRESHOLD_BYTES: nat := 500 * 1024
  const COMPRESSION_SAMPLE_BYTES: nat := 8 * 1024
  const COMPRESSION_MIN_GAIN_BPS: nat := 75

  const ACCOUNT_FIXED_BYTES: nat := 116
  const TRANSACTION_FIXED_BYTES: nat := 91
  const SLOT_FIXED_BYTES: nat := 18

  // ----- Field values -----

  function ReadU32(field: Bytes): (n: U32)
    requires |field| == 4
    ensures Le(n, 4) == field
  {
    FromLeRange(field);
    LeOfFromLe(field);
    FromLe(field)
  }

  function ReadU64(field: Bytes): (n: U64)
    requires |field| == 8
    ensures Le(n, 8) == field
  {
    FromLeRange(field);
    LeOfFromLe(field);
    FromLe(field)
  }

  function WriteBool(flag: bool): Bytes {
    if flag then [1] else [0]
  }

  function ReadBool(value: Byte): Option<bool> {
    match value
    case 0 => Some(false)
    case 1 => Some(true)
    case _ => None
  }

  function EnsureWire(version: Byte, tag: Byte, expectedTag: Byte): Result<()> {
    if version != WIRE_VERSION then Err(InvalidWireVersion(version, WIRE_VERSION))
    else if tag != expectedTag then Err(InvalidMessageTag(tag, expectedTag))
    else Ok(())
  }

  // ----- Account updates -----

  /** Whether the sample at the front of the payload promises a large enough gain. */
  predicate ShouldAttemptLz4(env: Env, payload: Bytes) {
    if |payload| < COMPRESSION_THRESHOLD_BYTES then false
    else
      var sampleLen := COMPRESSION_SAMPLE_BYTES;
      var compressedLen := |env.compress(payload[..sampleLen])|;
      compressedLen < sampleLen
      && (sampleLen - compressedLen) * 10_000 / sampleLen >= COMPRESSION_MIN_GAIN_BPS
  }

  /** Whether the encoder sends this payload compressed. */
  predicate Compresses(env: Env, payload: Bytes) {
    ShouldAttemptLz4(env, payload) && |env.compress(payload)| < |payload|
  }

  function WirePayload(env: Env, payload: Bytes): Bytes {
    if Compresses(env, payload) then env.compress(payload) else payload
  }

  ghost predicate AccountShaped(f: seq<Bytes>) {
    && |f| == 13
    && |f[0]| == |f[1]| == |f[6]| == |f[10]| == 1
    && |f[3]| == |f[4]| == 32
    && |f[2]| == |f[5]| == |f[7]| == |f[8]| == |f[9]| == 8
    && |f[11]| == |f[12]| == 4
  }

  /** The thirteen fields of a frame, at their fixed offsets. */
  function AccountSlices(b: Bytes): (f: seq<Bytes>)
    requires ACCOUNT_FIXED_BYTES <= |b|
    ensures AccountShaped(f)
  {
    [ b[0..1], b[1..2], b[2..10], b[10..42], b[42..74], b[74..82], b[82..83], b[83..91], b[91..99],
      b[99..107], b[107..108], b[108..112], b[112..116] ]
  }

  const ACCOUNT_CUTS: seq<nat> := [0, 1, 2, 10, 42, 74, 82, 83, 91, 99, 107, 108, 112, 116]

  /** Header fields and their fixed offsets determine each other. */
  lemma AccountSlicesOfJoin(f: seq<Bytes>, rest: Bytes)
    requires AccountShaped(f)
    ensures |Join(f)| == ACCOUNT_FIXED_BYTES
    ensures AccountSlices(Join(f) + rest) == f
  {
    CutsOfJoin(f, rest, ACCOUNT_CUTS);
  }

  lemma JoinOfAccountSlices(b: Bytes)
    requires ACCOUNT_FIXED_BYTES <= |b|
    ensures Join(AccountSlices(b)) == b[..ACCOUNT_FIXED_BYTES]
  {
    var f := AccountSlices(b);
    JoinOfCuts(f, b, ACCOUNT_CUTS, 13);
    assert f[..13] == f;
  }

  function AccountFields(u: AccountUpdate, stamp: U64, compressed: bool, wireLen: nat): (f: seq<Bytes>)
    ensures AccountShaped(f)
  {
    [ [WIRE_VERSION], [UPDATE_TAG], Le(stamp, 8), u.pubkey, u.owner, Le(u.lamports, 8),
      WriteBool(u.executable), Le(u.rentEpoch, 8), Le(u.slot, 8), Le(u.writeVersion, 8),
      WriteBool(compressed), Le(|u.payload|, 4), Le(wireLen, 4) ]
  }

  /** Header and wire payload of one account frame. The u32 conversions cannot fail below the size limit. */
  function EncodeAccount(env: Env, u: AccountUpdate, stamp: U64): Result<(Bytes, Bytes)> {
    if |u.payload| > MAX_ACCOUNT_PAYLOAD_BYTES then
      Err(PayloadTooLarge(|u.payload|, MAX_ACCOUNT_PAYLOAD_BYTES))
    else
      var wire := WirePayload(env, u.payload);
      Ok((Join(AccountFields(u, stamp, Compresses(env, u.payload), |wire|)), wire))
  }

  datatype ParsedAccount = ParsedAccount(
    stamp: U64, pubkey: Pubkey, owner: Pubkey, lamports: U64, executable: bool, rentEpoch: U64,
    slot: U64, writeVersion: U64, compressed: bool, rawLen: U32, wireLen: U32)

  /** What the fixed header says, field by field, in the order the checks are made. */
  function ParseAccountFields(f: seq<Bytes>, frameLen: nat): (r: Result<ParsedAccount>)
    requires AccountShaped(f)
    ensures r.Ok? ==> frameLen == ACCOUNT_FIXED_BYTES + r.value.wireLen
  {
    if EnsureWire(f[0][0], f[1][0], UPDATE_TAG).Err? then Err(EnsureWire(f[0][0], f[1][0], UPDATE_TAG).error)
    else if ReadBool(f[6][0]).None? then Err(MalformedPayload(BadBoolFlag))
    else if f[10][0] > 1 then Err(MalformedPayload(BadCompressionFlags))
    else if ReadU32(f[11]) > MAX_ACCOUNT_PAYLOAD_BYTES then
      Err(PayloadTooLarge(ReadU32(f[11]), MAX_ACCOUNT_PAYLOAD_BYTES))
    else if frameLen != ACCOUNT_FIXED_BYTES + ReadU32(f[12]) then Err(MalformedPayload(FrameSizeMismatch))
    else Ok(ParsedAccount(
              ReadU64(f[2]), f[3], f[4], ReadU64(f[5]), ReadBool(f[6][0]).value, ReadU64(f[7]),
              ReadU64(f[8]), ReadU64(f[9]), f[10][0] == 1, ReadU32(f[11]), ReadU32(f[12])))
  }

  function ParseAccount(b: Bytes): (r: Result<ParsedAccount>)
    ensures r.Ok? ==> |b| == ACCOUNT_FIXED_BYTES + r.value.wireLen
  {
    if |b| < ACCOUNT_FIXED_BYTES then Err(MalformedPayload(ShortFrame))
    else ParseAccountFields(AccountSlices(b), |b|)
  }

  /** The payload a parsed header and the bytes after it stand for. */
  function RawPayload(env: Env, p: ParsedAccount, wire: Bytes): Result<Bytes> {
    if p.compressed then
      match env.decompress(wire, p.rawLen)
      case None => Err(DecodeError)
      case Some(raw) => if |raw| != p.rawLen then Err(MalformedPayload(RawSizeMismatch)) else Ok(raw)
    else if p.wireLen != p.rawLen then Err(MalformedPayload(RawSizeMismatch))
    else Ok(wire)
  }

  function FromParsedAccount(p: ParsedAccount, payload: Bytes): Result<Stamped<AccountUpdate>> {
    if |payload| > MAX_ACCOUNT_PAYLOAD_BYTES then
      Err(PayloadTooLarge(|payload|, MAX_ACCOUNT_PAYLOAD_BYTES))
    else
      Ok(Stamped(AccountUpdate(p.pubkey, p.owner, p.lamports, p.executable, p.rentEpoch, p.slot,
                               p.writeVersion, payload), p.stamp))
  }

  function DecodeAccount(env: Env, b: Bytes): Result<Stamped<AccountUpdate>> {
    match ParseAccount(b)
    case Err(e) => Err(e)
    case Ok(p) =>
      match RawPayload(env, p, b[ACCOUNT_FIXED_BYTES..])
      case Err(e) => Err(e)
      case Ok(raw) => FromParsedAccount(p, raw)
  }


  /** The parser reads back every field of a header the encoder wrote. */
  lemma AccountFrameParses(u: AccountUpdate, stamp: U64, compressed: bool, wire: Bytes)
    requires |u.payload| <= MAX_ACCOUNT_PAYLOAD_BYTES && |wire| <= U32_MAX
    ensures var b := Join(AccountFields(u, stamp, compressed, |wire|)) + wire;
            && ParseAccount(b)
               == Ok(ParsedAccount(stamp, u.pubkey, u.owner, u.lamports, u.executable, u.rentEpoch, u.slot,
                                   u.writeVersion, compressed, |u.payload|, |wire|))
            && b[ACCOUNT_FIXED_BYTES..] == wire
            && |b| == ACCOUNT_FIXED_BYTES + |wire| && b[1] == UPDATE_TAG
  {
    AccountSlicesOfJoin(AccountFields(u, stamp, compressed, |wire|), wire);
    Le64RoundTrip(stamp);
    Le64RoundTrip(u.lamports);
    Le64RoundTrip(u.rentEpoch);
    Le64RoundTrip(u.slot);
    Le64RoundTrip(u.writeVersion);
    Le32RoundTrip(|u.payload|);
    Le32RoundTrip(|wire|);
  }

  lemma AccountPayloadRestored(env: Env, b: Bytes, u: AccountUpdate, stamp: U64)
    requires Lz4Inverts(env)
    requires |u.payload| <= MAX_ACCOUNT_PAYLOAD_BYTES && |WirePayload(env, u.payload)| <= U32_MAX
    requires ParseAccount(b)
             == Ok(ParsedAccount(stamp, u.pubkey, u.owner, u.lamports, u.executable, u.rentEpoch, u.slot,
                                 u.writeVersion, Compresses(env, u.payload), |u.payload|,
                                 |WirePayload(env, u.payload)|))
    requires b[ACCOUNT_FIXED_BYTES..] == WirePayload(env, u.payload)
    ensures DecodeAccount(env, b) == Ok(Stamped(u, stamp))
  {
    assert env.decompress(env.compress(u.payload), |u.payload|) == Some(u.payload);
  }

  /** Encoding fails exactly for payloads over the limit, and decoding undoes it, compressed or not. */
  lemma AccountRoundTrip(env: Env, u: AccountUpdate, stamp: U64)
    requires Lz4Inverts(env)
    ensures EncodeAccount(env, u, stamp).Ok? <==> |u.payload| <= 10 * 1024 * 1024
    ensures EncodeAccount(env, u, stamp).Ok? ==>
              var (header, wire) := EncodeAccount(env, u, stamp).value;
              DecodeAccount(env, header + wire) == Ok(Stamped(u, stamp))
  {
    if EncodeAccount(env, u, stamp).Ok? {
      var (header, wire) := EncodeAccount(env, u, stamp).value;
      AccountFrameParses(u, stamp, Compresses(env, u.payload), wire);
      AccountPayloadRestored(env, header + wire, u, stamp);
    }
  }

  /** A payload of 500 KiB or more, whose first 8 KiB shrink by at least 75 in 10 000, and that shrinks as a whole. */
  predicate Shrinks(env: Env, payload: Bytes) {
    && |payload| >= 512_000
    && |env.compress(payload[..8192])| < 8192
    && (8192 - |env.compress(payload[..8192])|) * 10_000 / 8192 >= 75
    && |env.compress(payload)| < |payload|
  }

  /** Where each field of an account frame stands, and when its payload is compressed. */
  lemma AccountLayout(env: Env, u: AccountUpdate, stamp: U64)
    requires EncodeAccount(env, u, stamp).Ok?
    ensures var (h, wire) := EncodeAccount(env, u, stamp).value;
            && |h| == 116 && h[0] == 9 && h[1] == 2 && h[2..10] == Le(stamp, 8)
            && h[10..42] == u.pubkey && h[42..74] == u.owner && h[74..82] == Le(u.lamports, 8)
            && h[82] == (if u.executable then 1 else 0) && h[83..91] == Le(u.rentEpoch, 8)
            && h[91..99] == Le(u.slot, 8) && h[99..107] == Le(u.writeVersion, 8)
            && h[107] == (if Shrinks(env, u.payload) then 1 else 0)
            && wire == (if Shrinks(env, u.payload) then env.compress(u.payload) else u.payload)
            && h[108..112] == Le(|u.payload|, 4) && h[112..116] == Le(|wire|, 4)
  {
    hide Le;
    var (h, wire) := EncodeAccount(env, u, stamp).value;
    var f := AccountFields(u, stamp, Compresses(env, u.payload), |wire|);
    AccountSlicesOfJoin(f, []);
    assert h + [] == h;
    var g := AccountSlices(h);
    hide Join;
    assert g == f;
    assert h[0..1] == g[0] && h[1..2] == g[1] && h[82..83] == g[6] && h[107..108] == g[10];
  }

  /** What becomes of any byte string: which check it fails first, or what stands at which offset. */
  lemma AccountVerdict(env: Env, b: Bytes)
    ensures var r := DecodeAccount(env, b);
            if |b| < 116 then r == Err(MalformedPayload(ShortFrame))
            else if b[0] != 9 then r == Err(InvalidWireVersion(b[0], 9))
            else if b[1] != 2 then r == Err(InvalidMessageTag(b[1], 2))
            else if b[82] > 1 then r == Err(MalformedPayload(BadBoolFlag))
            else if b[107] > 1 then r == Err(MalformedPayload(BadCompressionFlags))
            else
              var raw := FromLe(b[108..112]);
              var payload := if b[107] == 0 then Some(b[116..]) else env.decompress(b[116..], raw);
              if raw > 10 * 1024 * 1024 then r == Err(PayloadTooLarge(raw, 10 * 1024 * 1024))
              else if |b| != 116 + FromLe(b[112..116]) then r == Err(MalformedPayload(FrameSizeMismatch))
              else if payload.None? then r == Err(DecodeError)
              else if |payload.value| != raw then r == Err(MalformedPayload(RawSizeMismatch))
              else
                && r.Ok? && r.value.stamp == FromLe(b[2..10])
                && var u := r.value.update;
                   && u.pubkey == b[10..42] && u.owner == b[42..74] && u.lamports == FromLe(b[74..82])
                   && u.executable == (b[82] == 1) && u.rentEpoch == FromLe(b[83..91])
                   && u.slot == FromLe(b[91..99]) && u.writeVersion == FromLe(b[99..107])
                   && u.payload == payload.value
  {
    hide FromLe, Le;
    if |b| >= 116 {
      var f := AccountSlices(b);
      assert f[0] == [b[0]] && f[1] == [b[1]] && f[6] == [b[82]] && f[10] == [b[107]];
    }
  }

  /** The header of an accepted frame is the one the encoder writes for what was decoded. */
  lemma AccountHeaderExact(env: Env, b: Bytes)
    requires DecodeAccount(env, b).Ok?
    ensures var Stamped(u, stamp) := DecodeAccount(env, b).value;
            var p := ParseAccount(b).value;
            b[..ACCOUNT_FIXED_BYTES] == Join(AccountFields(u, stamp, p.compressed, p.wireLen))
  {
    var Stamped(u, stamp) := DecodeAccount(env, b).value;
    var p := ParseAccount(b).value;
    JoinOfAccountSlices(b);
    var f := AccountSlices(b);
    var g := AccountFields(u, stamp, p.compressed, p.wireLen);
    assert f[0] == g[0] && f[1] == g[1] && f[6] == g[6] && f[10] == g[10];
    assert f[11] == g[11] && f[12] == g[12];
    assert f == g;
  }

  /** An accepted frame is what the encoder would send exactly when the encoder makes the same choice
      about compression (and, compressed, its compressor produced these very bytes). */
  lemma AccountReencode(env: Env, b: Bytes)
    requires DecodeAccount(env, b).Ok?
    ensures var Stamped(u, stamp) := DecodeAccount(env, b).value;
            var p := ParseAccount(b).value;
            && EncodeAccount(env, u, stamp).Ok?
            && var (header, wire) := EncodeAccount(env, u, stamp).value;
               header + wire == b <==>
                 && p.compressed == Compresses(env, u.payload)
                 && (p.compressed ==> env.compress(u.payload) == b[ACCOUNT_FIXED_BYTES..])
  {
    var Stamped(u, stamp) := DecodeAccount(env, b).value;
    var p := ParseAccount(b).value;
    var (header, wire) := EncodeAccount(env, u, stamp).value;
    AccountHeaderExact(env, b);
    AccountSlicesOfJoin(AccountFields(u, stamp, Compresses(env, u.payload), |wire|), wire);
    if header + wire == b {
      assert wire == b[ACCOUNT_FIXED_BYTES..];
      assert AccountSlices(b)[10] == WriteBool(Compresses(env, u.payload));
    }
    if p.compressed == Compresses(env, u.payload)
       && (p.compressed ==> env.compress(u.payload) == b[ACCOUNT_FIXED_BYTES..]) {
      assert wire == b[ACCOUNT_FIXED_BYTES..];
      assert b == b[..ACCOUNT_FIXED_BYTES] + b[ACCOUNT_FIXED_BYTES..];
    }
  }

  /** The failing case: a small payload sent compressed is accepted, but the encoder would send it raw. */
  lemma SmallCompressedFrame(env: Env, u: AccountUpdate, stamp: U64)
    requires Lz4Inverts(env)
    requires |u.payload| < COMPRESSION_THRESHOLD_BYTES && |env.compress(u.payload)| <= U32_MAX
    ensures var wire := env.compress(u.payload);
            var b := Join(AccountFields(u, stamp, true, |wire|)) + wire;
            && DecodeAccount(env, b) == Ok(Stamped(u, stamp))
            && EncodeAccount(env, u, stamp).Ok?
            && var (header, payload) := EncodeAccount(env, u, stamp).value; header + payload != b
  {
    hide Join, AccountFields, ParseAccount, EncodeAccount;
    var wire := env.compress(u.payload);
    var b := Join(AccountFields(u, stamp, true, |wire|)) + wire;
    AccountFrameParses(u, stamp, true, wire);
    assert env.decompress(wire, |u.payload|) == Some(u.payload);
    assert DecodeAccount(env, b) == Ok(Stamped(u, stamp));
    hide DecodeAccount;
    assert !Compresses(env, u.payload);
    AccountReencode(env, b);
  }

  /** Below the compression threshold an uncompressed frame is always the encoder's own. */
  lemma SmallAccountFrameExact(env: Env, b: Bytes)
    requires DecodeAccount(env, b).Ok? && !ParseAccount(b).value.compressed
    requires |b| < 116 + 500 * 1024
    ensures var Stamped(u, stamp) := DecodeAccount(env, b).value;
            && EncodeAccount(env, u, stamp).Ok?
            && var (header, wire) := EncodeAccount(env, u, stamp).value; header + wire == b
  {
    AccountReencode(env, b);
  }

  // ----- Transaction updates -----

  ghost predicate TransactionShaped(f: seq<Bytes>) {
    && |f| == 8
    && |f[0]| == |f[1]| == |f[5]| == 1
    && |f[2]| == |f[3]| == 8
    && |f[4]| == |f[7]| == 4
    && |f[6]| == 64
  }

  function TransactionSlices(b: Bytes): (f: seq<Bytes>)
    requires TRANSACTION_FIXED_BYTES <= |b|
    ensures TransactionShaped(f)
  {
    [ b[0..1], b[1..2], b[2..10], b[10..18], b[18..22], b[22..23], b[23..87], b[87..91] ]
  }

  const TRANSACTION_CUTS: seq<nat> := [0, 1, 2, 10, 18, 22, 23, 87, 91]

  function TransactionFields(u: TransactionUpdate, stamp: U64): (f: seq<Bytes>)
    ensures TransactionShaped(f)
  {
    [ [WIRE_VERSION], [TRANSACTION_UPDATE_TAG], Le(stamp, 8), Le(u.slot, 8), Le(u.index, 4),
      WriteBool(u.isVote), u.signature, Le(|u.payload|, 4) ]
  }

  function EncodeTransaction(u: TransactionUpdate, stamp: U64): Result<(Bytes, Bytes)> {
    if |u.payload| > MAX_TRANSACTION_PAYLOAD_BYTES then
      Err(PayloadTooLarge(|u.payload|, MAX_TRANSACTION_PAYLOAD_BYTES))
    else Ok((Join(TransactionFields(u, stamp)), u.payload))
  }

  datatype ParsedTransaction = ParsedTransaction(
    stamp: U64, slot: U64, index: U32, isVote: bool, signature: Signature, payloadLen: U32)

  function ParseTransactionFields(f: seq<Bytes>, frameLen: nat): (r: Result<ParsedTransaction>)
    requires TransactionShaped(f)
    ensures r.Ok? ==> frameLen == TRANSACTION_FIXED_BYTES + r.value.payloadLen
  {
    var wire := EnsureWire(f[0][0], f[1][0], TRANSACTION_UPDATE_TAG);
    if wire.Err? then Err(wire.error)
    else if ReadBool(f[5][0]).None? then Err(MalformedPayload(BadBoolFlag))
    else if ReadU32(f[7]) > MAX_TRANSACTION_PAYLOAD_BYTES then
      Err(PayloadTooLarge(ReadU32(f[7]), MAX_TRANSACTION_PAYLOAD_BYTES))
    else if frameLen != TRANSACTION_FIXED_BYTES + ReadU32(f[7]) then Err(MalformedPayload(FrameSizeMismatch))
    else Ok(ParsedTransaction(ReadU64(f[2]), ReadU64(f[3]), ReadU32(f[4]), ReadBool(f[5][0]).value,
                              f[6], ReadU32(f[7])))
  }

  function ParseTransaction(b: Bytes): (r: Result<ParsedTransaction>)
    ensures r.Ok? ==> |b| == TRANSACTION_FIXED_BYTES + r.value.payloadLen
  {
    if |b| < TRANSACTION_FIXED_BYTES then Err(MalformedPayload(ShortFrame))
    else ParseTransactionFields(TransactionSlices(b), |b|)
  }

  function FromParsedTransaction(p: ParsedTransaction, payload: Bytes): Result<Stamped<TransactionUpdate>> {
    if |payload| > MAX_TRANSACTION_PAYLOAD_BYTES then
      Err(PayloadTooLarge(|payload|, MAX_TRANSACTION_PAYLOAD_BYTES))
    else Ok(Stamped(TransactionUpdate(p.slot, p.index, p.isVote, p.signature, payload), p.stamp))
  }

  function DecodeTransaction(b: Bytes): Result<Stamped<TransactionUpdate>> {
    match ParseTransaction(b)
    case Err(e) => Err(e)
    case Ok(p) => FromParsedTransaction(p, b[TRANSACTION_FIXED_BYTES..])
  }

  lemma TransactionDecodeExact(b: Bytes)
    requires DecodeTransaction(b).Ok?
    ensures var Stamped(u, stamp) := DecodeTransaction(b).value;
            EncodeTransaction(u, stamp).Ok? && Join(TransactionFields(u, stamp)) + u.payload == b
  {
    var Stamped(u, stamp) := DecodeTransaction(b).value;
    var f := TransactionFields(u, stamp);
    var g := TransactionSlices(b);
    JoinOfCuts(g, b, TRANSACTION_CUTS, 8);
    assert g[..8] == g;
    assert g[0] == f[0] && g[1] == f[1] && g[5] == f[5];
    assert g == f;
    assert b == b[..TRANSACTION_FIXED_BYTES] + b[TRANSACTION_FIXED_BYTES..];
  }

  lemma TransactionRoundTrip(u: TransactionUpdate, stamp: U64)
    requires |u.payload| <= MAX_TRANSACTION_PAYLOAD_BYTES
    ensures var b := Join(TransactionFields(u, stamp)) + u.payload;
            |b| == TRANSACTION_FIXED_BYTES + |u.payload| && b[1] == TRANSACTION_UPDATE_TAG
            && DecodeTransaction(b) == Ok(Stamped(u, stamp))
  {
    var f := TransactionFields(u, stamp);
    var b := Join(f) + u.payload;
    CutsOfJoin(f, u.payload, TRANSACTION_CUTS);
    assert TransactionSlices(b) == f;
    Le64RoundTrip(stamp);
    Le64RoundTrip(u.slot);
    Le32RoundTrip(u.index);
    Le32RoundTrip(|u.payload|);
    assert b[TRANSACTION_FIXED_BYTES..] == u.payload;
  }

  /** Decoder and encoder are exact inverses: a frame decodes to an update if and only if
      it is that update's encoding. */
  lemma TransactionExact(b: Bytes, u: TransactionUpdate, stamp: U64)
    ensures DecodeTransaction(b) == Ok(Stamped(u, stamp)) <==>
              && EncodeTransaction(u, stamp).Ok?
              && var (header, payload) := EncodeTransaction(u, stamp).value; header + payload == b
  {
    if DecodeTransaction(b) == Ok(Stamped(u, stamp)) {
      TransactionDecodeExact(b);
    }
    if EncodeTransaction(u, stamp).Ok? {
      TransactionRoundTrip(u, stamp);
    }
  }

  /** Where each field of a transaction frame stands. */
  lemma TransactionLayout(u: TransactionUpdate, stamp: U64)
    ensures EncodeTransaction(u, stamp).Ok? <==> |u.payload| <= 10 * 1024 * 1024
    ensures EncodeTransaction(u, stamp).Ok? ==>
              var (h, payload) := EncodeTransaction(u, stamp).value;
              && |h| == 91 && h[0] == 9 && h[1] == 6 && h[2..10] == Le(stamp, 8) && h[10..18] == Le(u.slot, 8)
              && h[18..22] == Le(u.index, 4) && h[22] == (if u.isVote then 1 else 0) && h[23..87] == u.signature
              && h[87..91] == Le(|u.payload|, 4) && payload == u.payload
  {
    hide Le;
    var f := TransactionFields(u, stamp);
    CutsOfJoin(f, [], TRANSACTION_CUTS);
    assert Join(f) + [] == Join(f);
    var g := TransactionSlices(Join(f));
    hide Join;
    assert g == f;
    assert g[0] == [9] && g[1] == [6] && |g[5]| == 1;
  }

  /** Which check a byte string fails first; what passes all of them is the encoding `TransactionExact` speaks of. */
  lemma TransactionVerdict(b: Bytes)
    ensures var r := DecodeTransaction(b);
            if |b| < 91 then r == Err(MalformedPayload(ShortFrame))
            else if b[0] != 9 then r == Err(InvalidWireVersion(b[0], 9))
            else if b[1] != 6 then r == Err(InvalidMessageTag(b[1], 6))
            else if b[22] > 1 then r == Err(MalformedPayload(BadBoolFlag))
            else
              var size := FromLe(b[87..91]);
              if size > 10 * 1024 * 1024 then r == Err(PayloadTooLarge(size, 10 * 1024 * 1024))
              else if |b| != 91 + size then r == Err(MalformedPayload(FrameSizeMismatch))
              else r.Ok?
  {
    hide FromLe, Le;
    if |b| >= 91 {
      var f := TransactionSlices(b);
      assert f[0] == [b[0]] && f[1] == [b[1]] && f[5] == [b[22]];
    }
  }

  // ----- Slot updates -----

  ghost predicate SlotShaped(f: seq<Bytes>) {
    |f| == 4 && |f[0]| == |f[1]| == 1 && |f[2]| == |f[3]| == 8
  }

  function SlotSlices(b: Bytes): (f: seq<Bytes>)
    requires SLOT_FIXED_BYTES <= |b|
    ensures SlotShaped(f)
  {
    [ b[0..1], b[1..2], b[2..10], b[10..18] ]
  }

  const SLOT_CUTS: seq<nat> := [0, 1, 2, 10, 18]

  function SlotFields(u: SlotUpdate, stamp: U64): (f: seq<Bytes>)
    ensures SlotShaped(f)
  {
    [ [WIRE_VERSION], [SLOT_UPDATE_TAG], Le(stamp, 8), Le(u.slot, 8) ]
  }

  function EncodeSlot(u: SlotUpdate, stamp: U64): Bytes {
    Join(SlotFields(u, stamp))
  }

  function DecodeSlot(b: Bytes): Result<Stamped<SlotUpdate>> {
    if |b| < SLOT_FIXED_BYTES then Err(MalformedPayload(ShortFrame))
    else
      var f := SlotSlices(b);
      var wire := EnsureWire(f[0][0], f[1][0], SLOT_UPDATE_TAG);
      if wire.Err? then Err(wire.error)
      else if |b| != SLOT_FIXED_BYTES then Err(MalformedPayload(FrameSizeMismatch))
      else Ok(Stamped(SlotUpdate(ReadU64(f[3])), ReadU64(f[2])))
  }

  lemma SlotExact(b: Bytes, u: SlotUpdate, stamp: U64)
    ensures DecodeSlot(b) == Ok(Stamped(u, stamp)) <==> EncodeSlot(u, stamp) == b
  {
    var f := SlotFields(u, stamp);
    CutsOfJoin(f, [], SLOT_CUTS);
    assert Join(f) + [] == Join(f);
    if DecodeSlot(b) == Ok(Stamped(u, stamp)) {
      var g := SlotSlices(b);
      JoinOfCuts(g, b, SLOT_CUTS, 4);
      assert g[..4] == g;
      assert g[0] == f[0] && g[1] == f[1];
      assert g == f;
    } else if EncodeSlot(u, stamp) == b {
      assert SlotSlices(b) == f;
      Le64RoundTrip(stamp);
      Le64RoundTrip(u.slot);
      assert false;
    }
  }

  /** Which check a byte string fails first; what passes all of them is the encoding `SlotExact` speaks of. */
  lemma SlotVerdict(b: Bytes)
    ensures var r := DecodeSlot(b);
            if |b| < 18 then r == Err(MalformedPayload(ShortFrame))
            else if b[0] != 9 then r == Err(InvalidWireVersion(b[0], 9))
            else if b[1] != 7 then r == Err(InvalidMessageTag(b[1], 7))
            else if |b| != 18 then r == Err(MalformedPayload(FrameSizeMismatch))
            else r.Ok?
  {
    if |b| >= 18 {
      var f := SlotSlices(b);
      assert f[0] == [b[0]] && f[1] == [b[1]];
    }
  }

  /** Where each field of a slot frame stands. */
  lemma SlotLayout(u: SlotUpdate, stamp: U64)
    ensures var h := EncodeSlot(u, stamp);
            |h| == 18 && h[0] == 9 && h[1] == 7 && h[2..10] == Le(stamp, 8) && h[10..18] == Le(u.slot, 8)
  {
    hide Le;
    var f := SlotFields(u, stamp);
    CutsOfJoin(f, [], SLOT_CUTS);
    assert Join(f) + [] == Join(f);
    var g := SlotSlices(Join(f));
    hide Join;
    assert g == f;
    assert g[0] == [9] && g[1] == [7];
  }

  // ----- Routing by tag -----

  datatype ServerFrame = UpdateFrame(stamped: Stamped<Update>) | ControlFrame(reply: ControlReply)

  function DecodeServerFrame(env: Env, b: Bytes): Result<ServerFrame> {
    if |b| < 2 then Err(MalformedPayload(NoWireTag))
    else if b[1] == UPDATE_TAG then
      match DecodeAccount(env, b)
      case Err(e) => Err(e)
      case Ok(Stamped(u, stamp)) => Ok(UpdateFrame(Stamped(Account(u), stamp)))
    else if b[1] == TRANSACTION_UPDATE_TAG then
      match DecodeTransaction(b)
      case Err(e) => Err(e)
      case Ok(Stamped(u, stamp)) => Ok(UpdateFrame(Stamped(Transaction(u), stamp)))
    else if b[1] == SLOT_UPDATE_TAG then
      match DecodeSlot(b)
      case Err(e) => Err(e)
      case Ok(Stamped(u, stamp)) => Ok(UpdateFrame(Stamped(Slot(u), stamp)))
    else if b[1] == READY_TAG || b[1] == READY_SHM_TAG then
      match env.decodeControl(b)
      case Err(e) => Err(e)
      case Ok(reply) => Ok(ControlFrame(reply))
    else Err(InvalidMessageTag(b[1], UPDATE_TAG))
  }

  /** The two chunks of an update's frame, as the dispatcher hands them to the ring. */
  function EncodeUpdate(env: Env, u: Update, stamp: U64): Result<(Bytes, Bytes)> {
    match u
    case Account(a) => EncodeAccount(env, a, stamp)
    case Transaction(t) => EncodeTransaction(t, stamp)
    case Slot(s) => Ok((EncodeSlot(s, stamp), []))
  }

  /** The frame decodes to this update, and is far too short for its length prefix to look like
      the ring's close sentinel. */
  predicate Carries(env: Env, b: Bytes, s: Stamped<Update>) {
    && DecodeServerFrame(env, b) == Ok(UpdateFrame(s))
    && |b| <= ACCOUNT_FIXED_BYTES + MAX_ACCOUNT_PAYLOAD_BYTES
  }

  lemma AccountRouted(env: Env, b: Bytes, s: Stamped<AccountUpdate>)
    requires DecodeAccount(env, b) == Ok(s)
    ensures DecodeServerFrame(env, b) == Ok(UpdateFrame(Stamped(Account(s.update), s.stamp)))
  {
    assert AccountSlices(b)[1] == [b[1]];
  }

  lemma TransactionRouted(env: Env, b: Bytes, s: Stamped<TransactionUpdate>)
    requires DecodeTransaction(b) == Ok(s)
    ensures DecodeServerFrame(env, b) == Ok(UpdateFrame(Stamped(Transaction(s.update), s.stamp)))
  {
    assert TransactionSlices(b)[1] == [b[1]];
  }

  lemma SlotRouted(env: Env, b: Bytes, s: Stamped<SlotUpdate>)
    requires DecodeSlot(b) == Ok(s)
    ensures DecodeServerFrame(env, b) == Ok(UpdateFrame(Stamped(Slot(s.update), s.stamp)))
  {
    assert SlotSlices(b)[1] == [b[1]];
  }

  /** Whatever the dispatcher encodes, the tag-routed decoder gives back, field for field. */
  lemma UpdateRoundTrip(env: Env, u: Update, stamp: U64)
    requires Lz4Inverts(env) && EncodeUpdate(env, u, stamp).Ok?
    ensures var (header, payload) := EncodeUpdate(env, u, stamp).value;
            Carries(env, header + payload, Stamped(u, stamp))
  {
    var (header, payload) := EncodeUpdate(env, u, stamp).value;
    match u {
      case Account(a) =>
        AccountRoundTrip(env, a, stamp);
        AccountRouted(env, header + payload, Stamped(a, stamp));
        AccountSlicesOfJoin(AccountFields(a, stamp, Compresses(env, a.payload), |payload|), payload);
      case Transaction(t) =>
        TransactionRoundTrip(t, stamp);
        TransactionRouted(env, header + payload, Stamped(t, stamp));
      case Slot(s) =>
        assert header + payload == header;
        SlotExact(header, s, stamp);
        SlotRouted(env, header, Stamped(s, stamp));
    }
  }

  /** No strict prefix or extension of an accepted update frame is accepted. */
  lemma UpdateFramesPrefixFree(env: Env, b: Bytes, longer: Bytes)
    requires b <= longer
    requires DecodeServerFrame(env, b).Ok? && DecodeServerFrame(env, b).value.UpdateFrame?
    requires DecodeServerFrame(env, longer).Ok?
    ensures b == longer
  {
    assert b[1] == longer[1];
    if b[1] == UPDATE_TAG {
      AccountLengthFixed(b, longer);
    } else if b[1] == TRANSACTION_UPDATE_TAG {
      TransactionLengthFixed(b, longer);
    } else {
      assert b[1] == SLOT_UPDATE_TAG;
    }
  }

  lemma AccountLengthFixed(b: Bytes, longer: Bytes)
    requires b <= longer && ParseAccount(b).Ok? && ParseAccount(longer).Ok?
    ensures b == longer
  {
    assert AccountSlices(b)[12] == AccountSlices(longer)[12];
  }

  lemma TransactionLengthFixed(b: Bytes, longer: Bytes)
    requires b <= longer && ParseTransaction(b).Ok? && ParseTransaction(longer).Ok?
    ensures b == longer
  {
    assert TransactionSlices(b)[7] == TransactionSlices(longer)[7];
  }
}
