/** The short binary forms of inscription ids and pointers: trailing zero bytes are dropped. */
module IdCodecs {
  import opened Wrappers
  import opened Bytes
  import opened UtxoEntry

  const TXID_LENGTH: nat := 32

  type Txid = b: seq<Byte> | |b| == TXID_LENGTH witness seq(TXID_LENGTH, _ => 0)

  datatype InscriptionId = InscriptionId(txid: Txid, index: U32)

  // ---------- trailing zeros ----------

  /** The bytes without their trailing zeros. */
  function Trim(bytes: seq<Byte>): (t: seq<Byte>)
    ensures t <= bytes && (t != [] ==> t[|t| - 1] != 0)
  {
    if bytes != [] && bytes[|bytes| - 1] == 0 then Trim(bytes[..|bytes| - 1]) else bytes
  }

  /** The i-th byte, or zero past the end. */
  function At(bytes: seq<Byte>, i: nat): Byte {
    if i < |bytes| then bytes[i] else 0
  }

  lemma {:induction false} TrimAt(bytes: seq<Byte>, i: nat)
    ensures At(Trim(bytes), i) == At(bytes, i)
  {
    if bytes != [] && bytes[|bytes| - 1] == 0 {
      TrimAt(bytes[..|bytes| - 1], i);
    }
  }

  /** Two byte strings with the same bytes at every position differ only in trailing zeros. */
  lemma TrimDetermined(a: seq<Byte>, b: seq<Byte>)
    requires forall i :: 0 <= i ==> At(a, i) == At(b, i)
    ensures Trim(a) == Trim(b)
  {
    var s, t := Trim(a), Trim(b);
    forall i | 0 <= i ensures At(s, i) == At(t, i) {
      TrimAt(a, i);
      TrimAt(b, i);
    }
    NotLonger(s, t);
    NotLonger(t, s);
    assert forall i :: 0 <= i < |s| ==> At(s, i) == s[i] && At(t, i) == t[i];
  }

  lemma NotLonger(s: seq<Byte>, t: seq<Byte>)
    requires t != [] ==> t[|t| - 1] != 0
    requires forall i :: 0 <= i ==> At(s, i) == At(t, i)
    ensures |t| <= |s|
  {
    if t != [] {
      assert At(s, |t| - 1) == At(t, |t| - 1) == t[|t| - 1];
    }
  }

  method TrimLoop(bytes: seq<Byte>) returns (t: seq<Byte>)
    ensures t == Trim(bytes)
  {
    t := bytes;
    while t != [] && t[|t| - 1] == 0
      invariant Trim(t) == Trim(bytes)
      decreases |t|
    {
      t := t[..|t| - 1];
    }
  }

  // ---------- inscription ids ----------

  function Value(id: InscriptionId): seq<Byte> {
    id.txid + Trim(ToBe(id.index))
  }

  function FromValue(value: seq<Byte>): Option<InscriptionId> {
    if |value| < TXID_LENGTH || |value| > TXID_LENGTH + 4 then None
    else
      var index := value[TXID_LENGTH..];
      if index != [] && |index| != 4 && index[|index| - 1] == 0 then None
      else Some(InscriptionId(value[..TXID_LENGTH], FromBe([At(index, 0), At(index, 1), At(index, 2), At(index, 3)])))
  }

  method EncodeId(id: InscriptionId) returns (value: seq<Byte>)
    ensures value == Value(id)
  {
    var index := TrimLoop(ToBe(id.index));
    value := id.txid + index;
  }

  lemma ToFromBe(bytes: seq<Byte>)
    requires |bytes| == 4
    ensures ToBe(FromBe(bytes)) == bytes
  {
    var n := FromBe(bytes);
    assert n % 256 == bytes[3] && n / 0x100 == (bytes[0] as int) * 0x1_0000 + (bytes[1] as int) * 0x100 + bytes[2];
    assert n / 0x100 % 256 == bytes[2] && n / 0x1_0000 == (bytes[0] as int) * 0x100 + bytes[1];
  }

  /** Four positions determine four bytes. */
  lemma FourAt(bytes: seq<Byte>, four: seq<Byte>)
    requires |four| == 4 && forall i :: 0 <= i < 4 ==> At(bytes, i) == four[i]
    ensures [At(bytes, 0), At(bytes, 1), At(bytes, 2), At(bytes, 3)] == four
  {
  }

  /** Reading the short form gives the id back. */
  lemma IdRoundTrip(id: InscriptionId)
    ensures FromValue(Value(id)) == Some(id)
  {
    var four := ToBe(id.index);
    assert Value(id)[TXID_LENGTH..] == Trim(four) && Value(id)[..TXID_LENGTH] == id.txid;
    forall i | 0 <= i < 4 ensures At(Trim(four), i) == four[i] {
      TrimAt(four, i);
    }
    FourAt(Trim(four), four);
    FromToBe(id.index);
  }

  /** The reader accepts exactly two forms of an id: the short one and the one with all four index bytes. */
  lemma AcceptedForms(value: seq<Byte>, id: InscriptionId)
    ensures FromValue(value) == Some(id) <==> value == Value(id) || value == id.txid + ToBe(id.index)
  {
    IdRoundTrip(id);
    FromToBe(id.index);
    var long := id.txid + ToBe(id.index);
    assert long[TXID_LENGTH..] == ToBe(id.index) && long[..TXID_LENGTH] == id.txid;
    FourAt(ToBe(id.index), ToBe(id.index));
    if FromValue(value) == Some(id) {
      var index := value[TXID_LENGTH..];
      var four := [At(index, 0), At(index, 1), At(index, 2), At(index, 3)];
      assert value == id.txid + index;
      ToFromBe(four);
      if |index| == 4 {
        assert index == four;
      } else {
        forall i | 0 <= i ensures At(index, i) == At(four, i) {
        }
        TrimDetermined(index, four);
      }
    }
  }

  // ---------- pointers ----------

  /** Low byte first. */
  function ToLe(n: nat, k: nat): (bytes: seq<Byte>)
    ensures |bytes| == k
  {
    if k == 0 then [] else [n % 256] + ToLe(n / 256, k - 1)
  }

  function FromLe(bytes: seq<Byte>): nat {
    if bytes == [] then 0 else bytes[0] + 256 * FromLe(bytes[1..])
  }

  function Pow256(k: nat): (p: nat)
    ensures p > 0
  {
    if k == 0 then 1 else 256 * Pow256(k - 1)
  }

  lemma {:induction false} FromToLe(n: nat, k: nat)
    requires n < Pow256(k)
    ensures FromLe(ToLe(n, k)) == n
  {
    if k > 0 {
      FromToLe(n / 256, k - 1);
    }
  }

  lemma {:induction false} ToFromLe(bytes: seq<Byte>)
    ensures FromLe(bytes) < Pow256(|bytes|) && ToLe(FromLe(bytes), |bytes|) == bytes
  {
    if bytes != [] {
      ToFromLe(bytes[1..]);
      assert FromLe(bytes) % 256 == bytes[0] && FromLe(bytes) / 256 == FromLe(bytes[1..]);
    }
  }

  function PointerValue(pointer: U64): seq<Byte> {
    Trim(ToLe(pointer, 8))
  }

  function FirstEight(value: seq<Byte>): (eight: seq<Byte>)
    ensures |eight| == 8
  {
    seq(8, i requires 0 <= i < 8 => At(value, i))
  }

  function Pointer(value: seq<Byte>): Option<nat> {
    if exists i :: 8 <= i < |value| && value[i] != 0 then None else Some(FromLe(FirstEight(value)))
  }

  method EncodePointer(pointer: U64) returns (value: seq<Byte>)
    ensures value == PointerValue(pointer)
  {
    value := TrimLoop(ToLe(pointer, 8));
  }

  lemma EightBytes()
    ensures Pow256(8) == U64_SIZE
  {
    assert Pow256(2) == 65536;
    assert Pow256(4) == 4294967296;
  }

  /** A value reads as a pointer exactly when it is that pointer's value up to trailing zeros. */
  lemma PointerReads(value: seq<Byte>, pointer: U64)
    ensures Pointer(value) == Some(pointer) <==> Trim(value) == PointerValue(pointer)
  {
    EightBytes();
    var le := ToLe(pointer, 8);
    FromToLe(pointer, 8);
    if Pointer(value) == Some(pointer) {
      ToFromLe(FirstEight(value));
      forall i | 0 <= i ensures At(value, i) == At(le, i) {
        assert i < 8 ==> FirstEight(value)[i] == le[i];
      }
      TrimDetermined(value, le);
    }
    if Trim(value) == PointerValue(pointer) {
      forall i | 0 <= i ensures At(value, i) == At(le, i) {
        TrimAt(value, i);
        TrimAt(le, i);
      }
      assert FirstEight(value) == le;
      assert forall i :: 8 <= i < |value| ==> At(value, i) == 0;
    }
  }

  lemma {:induction false} TrimTwice(bytes: seq<Byte>)
    ensures Trim(Trim(bytes)) == Trim(bytes)
  {
  }

  lemma PointerRoundTrip(pointer: U64)
    ensures Pointer(PointerValue(pointer)) == Some(pointer)
  {
    TrimTwice(ToLe(pointer, 8));
    PointerReads(PointerValue(pointer), pointer);
  }

}
