/** The codecs as they run: headers built by appending, frames read through a moving cursor. */
module CodecMethods {
  import opened Bytes
  import opened Types
  import opened Codec

  /** Takes `len` bytes at the cursor and moves it past them, or fails and leaves it. */
  method TakeExact(b: Bytes, cursor: nat, len: nat) returns (r: Result<Bytes>, next: nat)
    ensures cursor + len <= |b| ==> r == Ok(b[cursor..cursor + len]) && next == cursor + len
    ensures cursor + len > |b| ==> r == Err(MalformedPayload(OutOfBounds)) && next == cursor
  {
    if cursor + len > |b| {
      return Err(MalformedPayload(OutOfBounds)), cursor;
    }
    return Ok(b[cursor..cursor + len]), cursor + len;
  }

  method TakeU8(b: Bytes, cursor: nat) returns (r: Result<Byte>, next: nat)
    ensures cursor + 1 <= |b| ==> r == Ok(b[cursor]) && next == cursor + 1
    ensures cursor + 1 > |b| ==> r == Err(MalformedPayload(OutOfBounds)) && next == cursor
  {
    var raw;
    raw, next := TakeExact(b, cursor, 1);
    r := if raw.Ok? then Ok(raw.value[0]) else Err(raw.error);
  }

  method TakeU32(b: Bytes, cursor: nat) returns (r: Result<U32>, next: nat)
    ensures cursor + 4 <= |b| ==> r == Ok(ReadU32(b[cursor..cursor + 4])) && next == cursor + 4
    ensures cursor + 4 > |b| ==> r == Err(MalformedPayload(OutOfBounds)) && next == cursor
  {
    var raw;
    raw, next := TakeExact(b, cursor, 4);
    r := if raw.Ok? then Ok(ReadU32(raw.value)) else Err(raw.error);
  }

  method TakeU64(b: Bytes, cursor: nat) returns (r: Result<U64>, next: nat)
    ensures cursor + 8 <= |b| ==> r == Ok(ReadU64(b[cursor..cursor + 8])) && next == cursor + 8
    ensures cursor + 8 > |b| ==> r == Err(MalformedPayload(OutOfBounds)) && next == cursor
  {
    var raw;
    raw, next := TakeExact(b, cursor, 8);
    r := if raw.Ok? then Ok(ReadU64(raw.value)) else Err(raw.error);
  }

  /** Parses an account frame by advancing a cursor; it agrees with the fixed offsets on every string. */
  method ParseAccountFrame(b: Bytes) returns (r: Result<ParsedAccount>, payloadOffset: nat)
    ensures r == ParseAccount(b)
    ensures r.Ok? ==> payloadOffset == ACCOUNT_FIXED_BYTES
  {
    payloadOffset := 0;
    if |b| < ACCOUNT_FIXED_BYTES {
      return Err(MalformedPayload(ShortFrame)), 0;
    }
    var wire := EnsureWire(b[0], b[1], UPDATE_TAG);
    if wire.Err? {
      return Err(wire.error), 0;
    }
    var cursor := 2;
    var stamp, pubkey, owner, lamports, executable, rentEpoch, slot, writeVersion, flags, rawLen, wireLen;
    stamp, cursor := TakeU64(b, cursor);
    pubkey, cursor := TakeExact(b, cursor, 32);
    owner, cursor := TakeExact(b, cursor, 32);
    lamports, cursor := TakeU64(b, cursor);
    executable, cursor := TakeU8(b, cursor);
    if ReadBool(executable.value).None? {
      return Err(MalformedPayload(BadBoolFlag)), 0;
    }
    rentEpoch, cursor := TakeU64(b, cursor);
    slot, cursor := TakeU64(b, cursor);
    writeVersion, cursor := TakeU64(b, cursor);
    flags, cursor := TakeU8(b, cursor);
    if flags.value > 1 {
      return Err(MalformedPayload(BadCompressionFlags)), 0;
    }
    rawLen, cursor := TakeU32(b, cursor);
    if rawLen.value > MAX_ACCOUNT_PAYLOAD_BYTES {
      return Err(PayloadTooLarge(rawLen.value, MAX_ACCOUNT_PAYLOAD_BYTES)), 0;
    }
    wireLen, cursor := TakeU32(b, cursor);
    if |b| != cursor + wireLen.value {
      return Err(MalformedPayload(FrameSizeMismatch)), 0;
    }
    r := Ok(ParsedAccount(stamp.value, pubkey.value, owner.value, lamports.value,
                          ReadBool(executable.value).value, rentEpoch.value, slot.value, writeVersion.value,
                          flags.value == 1, rawLen.value, wireLen.value));
    payloadOffset := cursor;
  }

  /** Builds an account header field by field, choosing compression on the way. */
  method EncodeAccountParts(env: Env, u: AccountUpdate, stamp: U64) returns (r: Result<(Bytes, Bytes)>)
    ensures r == EncodeAccount(env, u, stamp)
  {
    if |u.payload| > MAX_ACCOUNT_PAYLOAD_BYTES {
      return Err(PayloadTooLarge(|u.payload|, MAX_ACCOUNT_PAYLOAD_BYTES));
    }
    var compressed := false;
    var wire := u.payload;
    if ShouldAttemptLz4(env, wire) {
      var candidate := env.compress(wire);
      if |candidate| < |wire| {
        compressed := true;
        wire := candidate;
      }
    }
    ghost var f := AccountFields(u, stamp, compressed, |wire|);
    var header: Bytes := [];
    header := header + [WIRE_VERSION];
    header := header + [UPDATE_TAG];
    header := header + Le(stamp, 8);
    header := header + u.pubkey;
    header := header + u.owner;
    header := header + Le(u.lamports, 8);
    assert header == Join(f[..6]) by {
      JoinSix(f);
    }
    header := header + WriteBool(u.executable);
    header := header + Le(u.rentEpoch, 8);
    header := header + Le(u.slot, 8);
    header := header + Le(u.writeVersion, 8);
    header := header + WriteBool(compressed);
    header := header + Le(|u.payload|, 4);
    header := header + Le(|wire|, 4);
    assert header == Join(f) by {
      JoinRest(f);
    }
    return Ok((header, wire));
  }

  lemma JoinSix(f: seq<Bytes>)
    requires |f| >= 6
    ensures Join(f[..6]) == [] + f[0] + f[1] + f[2] + f[3] + f[4] + f[5]
  {
    JoinExtend(f, 0); JoinExtend(f, 1); JoinExtend(f, 2);
    JoinExtend(f, 3); JoinExtend(f, 4); JoinExtend(f, 5);
  }

  lemma JoinRest(f: seq<Bytes>)
    requires |f| == 13
    ensures Join(f) == Join(f[..6]) + f[6] + f[7] + f[8] + f[9] + f[10] + f[11] + f[12]
  {
    JoinExtend(f, 6); JoinExtend(f, 7); JoinExtend(f, 8); JoinExtend(f, 9);
    JoinExtend(f, 10); JoinExtend(f, 11); JoinExtend(f, 12);
    assert f[..13] == f;
  }

  /** The borrowed decoder: the payload is copied out of the caller's bytes. */
  method DecodeAccountBorrowed(env: Env, b: Bytes) returns (r: Result<Stamped<AccountUpdate>>)
    ensures r == DecodeAccount(env, b)
  {
    var parsed, offset := ParseAccountFrame(b);
    if parsed.Err? {
      return Err(parsed.error);
    }
    var p := parsed.value;
    var wire := b[offset..offset + p.wireLen];
    assert wire == b[ACCOUNT_FIXED_BYTES..];
    var payload;
    if p.compressed {
      var raw := env.decompress(wire, p.rawLen);
      if raw.None? {
        return Err(DecodeError);
      }
      if |raw.value| != p.rawLen {
        return Err(MalformedPayload(RawSizeMismatch));
      }
      payload := raw.value;
    } else {
      if p.wireLen != p.rawLen {
        return Err(MalformedPayload(RawSizeMismatch));
      }
      payload := [];
      for i := 0 to |wire|
        invariant payload == wire[..i]
      {
        payload := payload + [wire[i]];
      }
      assert payload == wire;
    }
    r := FromParsedAccount(p, payload);
  }

  /** A reference-counted window on a shared buffer. */
  datatype Window = Window(buffer: Bytes, start: nat, end: nat) {
    predicate InBounds() { start <= end <= |buffer| }
    function Content(): Bytes requires InBounds() { buffer[start..end] }
  }

  /** The owned decoder: an uncompressed payload stays a window on the frame. It agrees with the
      borrowed decoder on every byte string. */
  method DecodeAccountOwned(env: Env, b: Bytes) returns (r: Result<Stamped<AccountUpdate>>)
    ensures r == DecodeAccount(env, b)
  {
    var parsed, offset := ParseAccountFrame(b);
    if parsed.Err? {
      return Err(parsed.error);
    }
    var p := parsed.value;
    var payload := Window(b, offset, offset + p.wireLen);
    assert payload.Content() == b[ACCOUNT_FIXED_BYTES..];
    if p.compressed {
      var raw := env.decompress(payload.Content(), p.rawLen);
      if raw.None? {
        return Err(DecodeError);
      }
      if |raw.value| != p.rawLen {
        return Err(MalformedPayload(RawSizeMismatch));
      }
      payload := Window(raw.value, 0, |raw.value|);
      assert payload.Content() == raw.value;
    } else if p.wireLen != p.rawLen {
      return Err(MalformedPayload(RawSizeMismatch));
    }
    r := FromParsedAccount(p, payload.Content());
  }

  method ParseTransactionFrame(b: Bytes) returns (r: Result<ParsedTransaction>, payloadOffset: nat)
    ensures r == ParseTransaction(b)
    ensures r.Ok? ==> payloadOffset == TRANSACTION_FIXED_BYTES
  {
    payloadOffset := 0;
    if |b| < TRANSACTION_FIXED_BYTES {
      return Err(MalformedPayload(ShortFrame)), 0;
    }
    var wire := EnsureWire(b[0], b[1], TRANSACTION_UPDATE_TAG);
    if wire.Err? {
      return Err(wire.error), 0;
    }
    var cursor := 2;
    var stamp, slot, index, isVote, signature, payloadLen;
    stamp, cursor := TakeU64(b, cursor);
    slot, cursor := TakeU64(b, cursor);
    index, cursor := TakeU32(b, cursor);
    isVote, cursor := TakeU8(b, cursor);
    if ReadBool(isVote.value).None? {
      return Err(MalformedPayload(BadBoolFlag)), 0;
    }
    signature, cursor := TakeExact(b, cursor, 64);
    payloadLen, cursor := TakeU32(b, cursor);
    if payloadLen.value > MAX_TRANSACTION_PAYLOAD_BYTES {
      return Err(PayloadTooLarge(payloadLen.value, MAX_TRANSACTION_PAYLOAD_BYTES)), 0;
    }
    if |b| != cursor + payloadLen.value {
      return Err(MalformedPayload(FrameSizeMismatch)), 0;
    }
    r := Ok(ParsedTransaction(stamp.value, slot.value, index.value, ReadBool(isVote.value).value,
                              signature.value, payloadLen.value));
    payloadOffset := cursor;
  }

  method DecodeTransactionFrame(b: Bytes) returns (r: Result<Stamped<TransactionUpdate>>)
    ensures r == DecodeTransaction(b)
  {
    var parsed, offset := ParseTransactionFrame(b);
    if parsed.Err? {
      return Err(parsed.error);
    }
    var payload := b[offset..offset + parsed.value.payloadLen];
    assert payload == b[TRANSACTION_FIXED_BYTES..];
    r := FromParsedTransaction(parsed.value, payload);
  }

  method EncodeTransactionParts(u: TransactionUpdate, stamp: U64) returns (r: Result<(Bytes, Bytes)>)
    ensures r == EncodeTransaction(u, stamp)
  {
    if |u.payload| > MAX_TRANSACTION_PAYLOAD_BYTES {
      return Err(PayloadTooLarge(|u.payload|, MAX_TRANSACTION_PAYLOAD_BYTES));
    }
    ghost var f := TransactionFields(u, stamp);
    var header: Bytes := [];
    header := header + [WIRE_VERSION];
    header := header + [TRANSACTION_UPDATE_TAG];
    header := header + Le(stamp, 8);
    header := header + Le(u.slot, 8);
    header := header + Le(u.index, 4);
    header := header + WriteBool(u.isVote);
    assert header == Join(f[..6]) by {
      JoinSix(f);
    }
    header := header + u.signature;
    header := header + Le(|u.payload|, 4);
    assert header == Join(f) by {
      JoinExtend(f, 6);
      JoinExtend(f, 7);
      assert f[..8] == f;
    }
    return Ok((header, u.payload));
  }

  method DecodeSlotFrame(b: Bytes) returns (r: Result<Stamped<SlotUpdate>>)
    ensures r == DecodeSlot(b)
  {
    if |b| < SLOT_FIXED_BYTES {
      return Err(MalformedPayload(ShortFrame));
    }
    var wire := EnsureWire(b[0], b[1], SLOT_UPDATE_TAG);
    if wire.Err? {
      return Err(wire.error);
    }
    var cursor := 2;
    var stamp, slot;
    stamp, cursor := TakeU64(b, cursor);
    slot, cursor := TakeU64(b, cursor);
    if |b| != cursor {
      return Err(MalformedPayload(FrameSizeMismatch));
    }
    return Ok(Stamped(SlotUpdate(slot.value), stamp.value));
  }

  method EncodeSlotParts(u: SlotUpdate, stamp: U64) returns (header: Bytes)
    ensures header == EncodeSlot(u, stamp)
  {
    ghost var f := SlotFields(u, stamp);
    header := [];
    header := header + [WIRE_VERSION];
    header := header + [SLOT_UPDATE_TAG];
    header := header + Le(stamp, 8);
    header := header + Le(u.slot, 8);
    JoinExtend(f, 0);
    JoinExtend(f, 1);
    JoinExtend(f, 2);
    JoinExtend(f, 3);
    assert f[..4] == f;
  }
}
