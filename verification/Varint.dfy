/** Variable-length integers, seven bits a byte, low bits first (unsigned LEB128, section 7.6 of DWARF
    Version 5), limited to 128 bits. */
module Varint {
  import opened Arithmetic
  import opened Bytes

  const U128_SIZE: nat := 0x1_0000_0000_0000_0000_0000_0000_0000_0000

  datatype VarintError = Overlong | Overflow | Unterminated

  datatype Decoded = Value(n: nat, length: nat) | Failed(error: VarintError)

  function Pow128(k: nat): (p: nat)
    ensures p > 0
  {
    if k == 0 then 1 else 128 * Pow128(k - 1)
  }

  /** A byte with the top bit set is followed by another. */
  predicate Continues(b: Byte) {
    b >= 128
  }

  /** The number a run of bytes denotes: the sum of their low seven bits times powers of 128. */
  function Sum(bytes: seq<Byte>): nat {
    if bytes == [] then 0 else Sum(bytes[..|bytes| - 1]) + Times(bytes[|bytes| - 1] % 128, Pow128(|bytes| - 1))
  }

  /** The position of the first byte without the top bit. */
  function Stop(buffer: seq<Byte>): (k: nat)
    ensures k <= |buffer|
    ensures forall i :: 0 <= i < k ==> Continues(buffer[i])
    ensures k < |buffer| ==> !Continues(buffer[k])
  {
    if buffer == [] || !Continues(buffer[0]) then 0 else 1 + Stop(buffer[1..])
  }

  /** What decoding a buffer gives, whatever follows the number. */
  function Decode(buffer: seq<Byte>): Decoded {
    var k := Stop(buffer);
    if k >= 18 && |buffer| > 18 && buffer[18] % 128 >= 4 then Failed(Overflow)
    else if k > 18 && |buffer| > 19 then Failed(Overlong)
    else if k == |buffer| then Failed(Unterminated)
    else Value(Sum(buffer[..k + 1]), k + 1)
  }

  function Encode(n: nat): (bytes: seq<Byte>)
    ensures bytes != []
  {
    if n < 128 then [n] else [n % 128 + 128] + Encode(n / 128)
  }

  // ---------- the loops ----------

  method EncodeToVec(value: nat, v: seq<Byte>) returns (out: seq<Byte>)
    requires value < U128_SIZE
    ensures out == v + Encode(value)
  {
    var n := value;
    out := v;
    while n / 128 > 0
      invariant out + Encode(n) == v + Encode(value)
      decreases n
    {
      assert Encode(n) == [n % 128 + 128] + Encode(n / 128);
      out := out + [n % 128 + 128];
      n := n / 128;
    }
    out := out + [n % 128];
  }

  lemma SumPush(bytes: seq<Byte>, i: nat)
    requires i < |bytes|
    ensures Sum(bytes[..i + 1]) == Sum(bytes[..i]) + Times(bytes[i] % 128, Pow128(i))
  {
    assert bytes[..i + 1][..i] == bytes[..i];
  }

  method VarintDecode(buffer: seq<Byte>) returns (r: Decoded)
    ensures r == Decode(buffer)
  {
    var n := 0;
    for i := 0 to |buffer|
      invariant i <= Stop(buffer) && i <= 19
      invariant i == 19 ==> buffer[18] % 128 < 4
      invariant n == Sum(buffer[..i])
    {
      if i > 18 {
        return Failed(Overlong);
      }
      var value := buffer[i] % 128;
      if i == 18 && value >= 4 {
        return Failed(Overflow);
      }
      SumPush(buffer, i);
      n := n + Times(value, Pow128(i));
      if !Continues(buffer[i]) {
        return Value(n, i + 1);
      }
    }
    return Failed(Unterminated);
  }

  // ---------- the range ----------

  lemma {:induction false} SumBound(bytes: seq<Byte>)
    ensures Sum(bytes) < Pow128(|bytes|)
  {
    if bytes != [] {
      var front, last := bytes[..|bytes| - 1], bytes[|bytes| - 1] % 128;
      SumBound(front);
      MulMonotone(last + 1, 128, Pow128(|front|));
      MulDistributes(last, 1, Pow128(|front|));
    }
  }

  lemma {:induction false} Pow128Add(a: nat, b: nat)
    ensures Pow128(a + b) == Pow128(a) * Pow128(b)
  {
    if a > 0 {
      Pow128Add(a - 1, b);
      MulAssociates(128, Pow128(a - 1), Pow128(b));
    }
  }

  lemma FourTimesPower()
    ensures 4 * Pow128(18) == U128_SIZE
  {
    assert Pow128(3) == 2097152;
    Pow128Add(3, 3);
    Pow128Add(6, 6);
    Pow128Add(6, 12);
  }

  lemma {:induction false} PowMonotone(a: nat, b: nat)
    requires a <= b
    ensures Pow128(a) <= Pow128(b)
  {
    if a < b {
      PowMonotone(a, b - 1);
    }
  }

  /** A decoded number always fits 128 bits, so no bit is shifted out. */
  lemma DecodedFits(buffer: seq<Byte>)
    requires Decode(buffer).Value?
    ensures Decode(buffer).n < U128_SIZE && 0 < Decode(buffer).length <= |buffer|
  {
    var k := Stop(buffer);
    FourTimesPower();
    if k < 18 {
      SumBound(buffer[..k + 1]);
      PowMonotone(k + 1, 18);
    } else {
      SumBound(buffer[..18]);
      SumPush(buffer, 18);
      MulMonotone(buffer[18] % 128, 3, Pow128(18));
    }
  }

  // ---------- the round trip ----------

  lemma {:induction false} SumFront(b: Byte, bytes: seq<Byte>)
    ensures Sum([b] + bytes) == b % 128 + 128 * Sum(bytes)
  {
    if bytes == [] {
      assert [b] + bytes == [b] && [b][..0] == [];
    } else {
      var front, last := bytes[..|bytes| - 1], bytes[|bytes| - 1] % 128;
      SumFront(b, front);
      assert ([b] + bytes)[..|bytes|] == [b] + front;
      MulAssociates(last, 128, Pow128(|front|));
      MulAssociates(128, last, Pow128(|front|));
    }
  }

  lemma {:induction false} EncodeShape(n: nat)
    ensures Sum(Encode(n)) == n
    ensures forall i :: 0 <= i < |Encode(n)| ==> (Continues(Encode(n)[i]) <==> i < |Encode(n)| - 1)
  {
    if n < 128 {
      assert [n][..0] == [];
    } else {
      EncodeShape(n / 128);
      SumFront(n % 128 + 128, Encode(n / 128));
      assert (n % 128 + 128) % 128 == n % 128;
    }
  }

  /** A number below 128^k takes at most k bytes. */
  lemma {:induction false} EncodeLength(n: nat, k: nat)
    requires k > 0 && n < Pow128(k)
    ensures |Encode(n)| <= k
  {
    if n >= 128 {
      assert Pow128(k) == 128 * Pow128(k - 1);
      EncodeLength(n / 128, k - 1);
    }
  }

  lemma {:induction false} LastGroup(n: nat, k: nat)
    requires |Encode(n)| == k + 1 && n < 4 * Pow128(k)
    ensures Encode(n)[k] < 4
  {
    if k > 0 {
      assert 4 * Pow128(k) == 128 * (4 * Pow128(k - 1));
      LastGroup(n / 128, k - 1);
    }
  }

  lemma StopAt(buffer: seq<Byte>, k: nat)
    requires k < |buffer| && !Continues(buffer[k]) && forall i :: 0 <= i < k ==> Continues(buffer[i])
    ensures Stop(buffer) == k
  {
  }

  /** Decoding reads back any 128-bit number, whatever follows it, and says how long it was. */
  lemma DecodeEncode(n: nat, rest: seq<Byte>)
    requires n < U128_SIZE
    ensures Decode(Encode(n) + rest) == Value(n, |Encode(n)|)
  {
    var bytes := Encode(n);
    var buffer, k := bytes + rest, |bytes| - 1;
    EncodeShape(n);
    FourTimesPower();
    assert Pow128(19) == 128 * Pow128(18);
    EncodeLength(n, 19);
    StopAt(buffer, k);
    assert buffer[..k + 1] == bytes;
    if k == 18 {
      LastGroup(n, 18);
    }
  }

}
