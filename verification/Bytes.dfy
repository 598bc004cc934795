/** Bytes, little-endian integers, and frames laid out as a list of fixed-width fields. */
module Bytes {

  type Byte = x: int | 0 <= x < 256
  type Bytes = seq<Byte>

  const U32_MAX: nat := 0xFFFF_FFFF
  const U64_MAX: nat := 0xFFFF_FFFF_FFFF_FFFF

  type U32 = x: nat | x <= U32_MAX
  type U64 = x: nat | x <= U64_MAX

  /** 256 to the power `width`: how many values `width` bytes can tell apart. */
  function Radix(width: nat): nat {
    if width == 0 then 1 else 256 * Radix(width - 1)
  }

  /** `width` little-endian bytes of `n`, as `to_le_bytes` writes them. */
  function Le(n: nat, width: nat): (b: Bytes)
    ensures |b| == width
  {
    if width == 0 then [] else [n % 256] + Le(n / 256, width - 1)
  }

  /** The number a little-endian byte string stands for, as `from_le_bytes` reads it. */
  function FromLe(b: Bytes): nat {
    if b == [] then 0 else b[0] + 256 * FromLe(b[1..])
  }

  lemma {:induction false} FromLeOfLe(n: nat, width: nat)
    requires n < Radix(width)
    ensures FromLe(Le(n, width)) == n
  {
    if width > 0 {
      FromLeOfLe(n / 256, width - 1);
      assert Le(n, width)[1..] == Le(n / 256, width - 1);
    }
  }

  lemma {:induction false} LeOfFromLe(b: Bytes)
    ensures FromLe(b) < Radix(|b|)
    ensures Le(FromLe(b), |b|) == b
  {
    if b != [] {
      LeOfFromLe(b[1..]);
      assert FromLe(b) % 256 == b[0] && FromLe(b) / 256 == FromLe(b[1..]);
    }
  }

  lemma RadixValues()
    ensures Radix(1) == 256 && Radix(4) == U32_MAX + 1 && Radix(8) == U64_MAX + 1
  {
    assert Radix(2) == 0x1_0000;
    assert Radix(4) == 0x1_0000_0000;
    assert Radix(6) == 0x1_0000_0000_0000;
  }

  /** A u32 and its four bytes determine each other. */
  lemma Le32RoundTrip(n: nat)
    requires n <= U32_MAX
    ensures FromLe(Le(n, 4)) == n
  {
    RadixValues();
    FromLeOfLe(n, 4);
  }

  lemma Le64RoundTrip(n: nat)
    requires n <= U64_MAX
    ensures FromLe(Le(n, 8)) == n
  {
    RadixValues();
    FromLeOfLe(n, 8);
  }

  /** Four bytes from `i` on as a number, the lowest byte first. */
  function LowFirst(b: Bytes, i: nat): int
    requires i + 4 <= |b|
  {
    b[i] as int + 0x100 * (b[i + 1] as int) + 0x1_0000 * (b[i + 2] as int) + 0x100_0000 * (b[i + 3] as int)
  }

  /** Numbers are written with the lowest byte first. */
  lemma LowByteFirst(n: nat)
    ensures n <= U32_MAX ==> n == LowFirst(Le(n, 4), 0)
    ensures n <= U64_MAX ==> n == LowFirst(Le(n, 8), 0) + 0x1_0000_0000 * LowFirst(Le(n, 8), 4)
  {
    if n <= U32_MAX {
      Le32RoundTrip(n);
      LowBytes(Le(n, 4));
    }
    if n <= U64_MAX {
      Le64RoundTrip(n);
      LowBytes(Le(n, 8));
      LowBytes(Le(n, 8)[4..]);
    }
  }

  lemma LowBytes(b: Bytes)
    requires |b| >= 4
    ensures FromLe(b) == LowFirst(b, 0) + 0x1_0000_0000 * FromLe(b[4..])
  {
    assert FromLe(b[3..]) == b[3] as int + 0x100 * FromLe(b[4..]) by { assert b[3..][1..] == b[4..]; }
    assert FromLe(b[2..]) == b[2] as int + 0x100 * FromLe(b[3..]) by { assert b[2..][1..] == b[3..]; }
    assert FromLe(b[1..]) == b[1] as int + 0x100 * FromLe(b[2..]) by { assert b[1..][1..] == b[2..]; }
  }

  lemma FromLeRange(b: Bytes)
    ensures |b| == 4 ==> FromLe(b) <= U32_MAX
    ensures |b| == 8 ==> FromLe(b) <= U64_MAX
  {
    RadixValues();
    LeOfFromLe(b);
  }

  lemma Assoc(a: Bytes, b: Bytes, c: Bytes)
    ensures (a + b) + c == a + (b + c)
  {
  }

  // ----- Frames as lists of fields -----

  function Join(fields: seq<Bytes>): Bytes {
    if fields == [] then [] else fields[0] + Join(fields[1..])
  }

  /** Appending one field to a buffer that holds the fields before it. */
  lemma {:induction false} JoinExtend(fields: seq<Bytes>, k: nat)
    requires k < |fields|
    ensures Join(fields[..k + 1]) == Join(fields[..k]) + fields[k]
  {
    if k == 0 {
      assert fields[..1][1..] == [];
    } else {
      JoinExtend(fields[1..], k - 1);
      assert fields[..k + 1][1..] == fields[1..][..k];
      assert fields[..k][1..] == fields[1..][..k - 1];
    }
  }

  /** Field `k` of a joined frame is found where the fields before it end. */
  lemma {:induction false} JoinAt(fields: seq<Bytes>, rest: Bytes, k: nat)
    requires k < |fields|
    ensures |Join(fields[..k])| + |fields[k]| == |Join(fields[..k + 1])| <= |Join(fields)|
    ensures (Join(fields) + rest)[|Join(fields[..k])|..|Join(fields[..k + 1])|] == fields[k]
  {
    JoinExtend(fields, k);
    if k > 0 {
      var tail := fields[1..];
      JoinAt(tail, rest, k - 1);
      assert fields[..k + 1][1..] == tail[..k];
      assert fields[..k][1..] == tail[..k - 1];
      assert (Join(fields) + rest)[|fields[0]|..] == Join(tail) + rest;
    }
  }

  /** The fields are the stretches of `b` between consecutive cuts, from the start of `b`. */
  ghost predicate CutAt(fields: seq<Bytes>, b: Bytes, cuts: seq<nat>) {
    && |cuts| == |fields| + 1 && cuts[0] == 0
    && forall i {:trigger fields[i]} {:trigger CutHere(fields, b, cuts, i)} | 0 <= i < |fields| ::
         CutHere(fields, b, cuts, i)
  }

  ghost predicate CutHere(fields: seq<Bytes>, b: Bytes, cuts: seq<nat>, i: nat)
    requires |cuts| == |fields| + 1 && i < |fields|
  {
    cuts[i] <= cuts[i + 1] <= |b| && fields[i] == b[cuts[i]..cuts[i + 1]]
  }

  ghost predicate Measured(fields: seq<Bytes>, cuts: seq<nat>) {
    && |cuts| == |fields| + 1 && cuts[0] == 0
    && forall i {:trigger fields[i]} | 0 <= i < |fields| :: cuts[i + 1] == cuts[i] + |fields[i]|
  }

  /** Fields cut from a string join back to the front of it. */
  lemma {:induction false} JoinOfCuts(fields: seq<Bytes>, b: Bytes, cuts: seq<nat>, k: nat)
    requires CutAt(fields, b, cuts) && k <= |fields|
    ensures cuts[k] <= |b| && Join(fields[..k]) == b[..cuts[k]]
  {
    if k > 0 {
      JoinOfCuts(fields, b, cuts, k - 1);
      JoinExtend(fields, k - 1);
      assert fields[k - 1] == b[cuts[k - 1]..cuts[k]];
    }
  }

  /** Cutting joined fields where each one ends gives them back, whatever follows. */
  lemma CutsOfJoin(fields: seq<Bytes>, rest: Bytes, cuts: seq<nat>)
    requires Measured(fields, cuts)
    ensures |Join(fields)| == cuts[|fields|]
    ensures CutAt(fields, Join(fields) + rest, cuts)
  {
    var b := Join(fields) + rest;
    assert fields[..|fields|] == fields;
    MeasuredPrefix(fields, cuts, |fields|);
    forall i | 0 <= i < |fields|
      ensures CutHere(fields, b, cuts, i)
    {
      MeasuredPrefix(fields, cuts, i);
      MeasuredPrefix(fields, cuts, i + 1);
      JoinAt(fields, rest, i);
    }
  }

  lemma {:induction false} MeasuredPrefix(fields: seq<Bytes>, cuts: seq<nat>, k: nat)
    requires Measured(fields, cuts) && k <= |fields|
    ensures |Join(fields[..k])| == cuts[k]
  {
    if k > 0 {
      MeasuredPrefix(fields, cuts, k - 1);
      JoinExtend(fields, k - 1);
      assert cuts[k] == cuts[k - 1] + |fields[k - 1]|;
    }
  }
}
