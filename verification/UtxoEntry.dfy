/** The stored form of an unspent output: its value, then its inscriptions until the bytes end. */
module UtxoEntry {
  import opened Wrappers
  import opened Bytes
  import opened Sequences
  import opened Varint

  const U32_SIZE: nat := 0x1_0000_0000
  const U64_SIZE: nat := 0x1_0000_0000_0000_0000

  type U32 = n: nat | n < U32_SIZE
  type U64 = n: nat | n < U64_SIZE

  datatype Inscription = Inscription(sequence: U32, offset: U64)

  /** Four bytes, high byte first. */
  function ToBe(n: U32): (bytes: seq<Byte>)
    ensures |bytes| == 4
  {
    [n / 0x100_0000, n / 0x1_0000 % 256, n / 0x100 % 256, n % 256]
  }

  function FromBe(bytes: seq<Byte>): U32
    requires |bytes| == 4
  {
    (bytes[0] as int) * 0x100_0000 + (bytes[1] as int) * 0x1_0000 + (bytes[2] as int) * 0x100 + bytes[3]
  }

  lemma FromToBe(n: U32)
    ensures FromBe(ToBe(n)) == n
  {
    assert n / 0x1_0000 == n / 0x100_0000 * 256 + n / 0x1_0000 % 256;
    assert n / 0x100 == n / 0x1_0000 * 256 + n / 0x100 % 256;
  }

  function EncodeOne(i: Inscription): (bytes: seq<Byte>)
    ensures |bytes| > 4
  {
    ToBe(i.sequence) + Encode(i.offset)
  }

  function EncodeList(list: seq<Inscription>): seq<Byte> {
    Flat(list, EncodeOne)
  }

  function EncodeEntry(value: U64, list: seq<Inscription>): seq<Byte> {
    Encode(value) + EncodeList(list)
  }

  // ---------- building ----------

  class UtxoEntryBuf {
    var vec: seq<Byte>
    ghost var value: U64
    ghost var list: seq<Inscription>

    /** Once the value is pushed, the bytes are the value and the list. */
    ghost predicate Built()
      reads this
    {
      vec == EncodeEntry(value, list)
    }

    constructor ()
      ensures vec == []
    {
      vec := [];
    }

    method PushValue(v: U64)
      requires vec == []
      modifies this
      ensures Built() && value == v && list == []
    {
      vec := EncodeToVec(v, vec);
      value, list := v, [];
    }

    method PushInscription(sequence: U32, offset: U64)
      requires Built()
      modifies this
      ensures Built() && value == old(value) && list == old(list) + [Inscription(sequence, offset)]
    {
      ghost var longer := list + [Inscription(sequence, offset)];
      assert longer[..|list|] == list;
      vec := vec + ToBe(sequence);
      vec := EncodeToVec(offset, vec);
      assert vec == Encode(value) + (EncodeList(list) + EncodeOne(Inscription(sequence, offset)));
      list := longer;
    }

    /** The entry of an output that holds nothing. */
    constructor Empty()
      ensures Built() && value == 0 && list == []
    {
      vec := [];
      value, list := 0, [];
      new;
      PushValue(0);
    }
  }

  // ---------- parsing; None where the source panics ----------

  function ParseOne(bytes: seq<Byte>): (r: Option<(Inscription, nat)>)
    ensures r.Some? ==> 4 < r.value.1 <= |bytes|
  {
    if |bytes| < 4 then None
    else
      match Decode(bytes[4..])
      case Failed(_) => None
      case Value(n, length) =>
        if n >= U64_SIZE then None else Some((Inscription(FromBe(bytes[..4]), n), 4 + length))
  }

  function ParseList(bytes: seq<Byte>): Option<seq<Inscription>> {
    if bytes == [] then Some([])
    else
      match ParseOne(bytes)
      case None => None
      case Some((i, length)) =>
        match ParseList(bytes[length..])
        case None => None
        case Some(rest) => Some([i] + rest)
  }

  function After(parsed: seq<Inscription>, rest: Option<seq<Inscription>>): Option<seq<Inscription>> {
    match rest
    case None => None
    case Some(list) => Some(parsed + list)
  }

  lemma AfterNothing(rest: Option<seq<Inscription>>)
    ensures After([], rest) == rest
  {
    if rest.Some? {
      assert [] + rest.value == rest.value;
    }
  }

  lemma ParseStep(parsed: seq<Inscription>, left: seq<Byte>, i: Inscription, length: nat)
    requires left != [] && ParseOne(left) == Some((i, length))
    ensures After(parsed, ParseList(left)) == After(parsed + [i], ParseList(left[length..]))
  {
    var rest := ParseList(left[length..]);
    if rest.Some? {
      assert parsed + ([i] + rest.value) == parsed + [i] + rest.value;
    }
  }

  /** One inscription at an offset: four bytes, then a variable-length integer. */
  method ParseAt(bytes: seq<Byte>, offset: nat) returns (r: Option<(Inscription, nat)>)
    requires offset < |bytes|
    ensures r == ParseOne(bytes[offset..])
  {
    if offset + 4 > |bytes| {
      return None;
    }
    var sequence := FromBe(bytes[offset..offset + 4]);
    assert bytes[offset..][..4] == bytes[offset..offset + 4] && bytes[offset..][4..] == bytes[offset + 4..];
    var decoded := VarintDecode(bytes[offset + 4..]);
    if decoded.Failed? || decoded.n >= U64_SIZE {
      return None;
    }
    return Some((Inscription(sequence, decoded.n), 4 + decoded.length));
  }

  lemma ParseEnds(parsed: seq<Inscription>, left: seq<Byte>)
    ensures left == [] ==> After(parsed, ParseList(left)) == Some(parsed)
    ensures left != [] && ParseOne(left).None? ==> After(parsed, ParseList(left)) == None
  {
    assert parsed + [] == parsed;
  }

  method ParseInscriptions(inscriptions: seq<Byte>) returns (r: Option<seq<Inscription>>)
    ensures r == ParseList(inscriptions)
  {
    var byteOffset, parsed := 0, [];
    ghost var all, left := ParseList(inscriptions), inscriptions;
    AfterNothing(all);
    while byteOffset < |inscriptions|
      invariant byteOffset <= |inscriptions| && left == inscriptions[byteOffset..]
      invariant all == After(parsed, ParseList(left))
    {
      var next := ParseAt(inscriptions, byteOffset);
      ParseEnds(parsed, left);
      if next.None? {
        return None;
      }
      var (i, length) := next.value;
      ParseStep(parsed, left, i, length);
      left := left[length..];
      byteOffset := byteOffset + length;
      parsed := parsed + [i];
    }
    ParseEnds(parsed, left);
    return Some(parsed);
  }

  /** The index's own reader: the value, and the bytes of the list. */
  method Parse(bytes: seq<Byte>) returns (r: Option<(U64, seq<Byte>)>)
    ensures r == match Decode(bytes)
                 case Failed(_) => None
                 case Value(n, length) => if n >= U64_SIZE then None else Some((n, bytes[length..]))
  {
    var decoded := VarintDecode(bytes);
    if decoded.Failed? || decoded.n >= U64_SIZE {
      return None;
    }
    return Some((decoded.n, bytes[decoded.length..]));
  }

  /** The database reader's own loop over a raw entry; it truncates the value to 64 bits. */
  method GetUtxoEntryFromRaw(raw: seq<Byte>) returns (r: Option<(U64, seq<Inscription>)>)
    ensures r == match Decode(raw)
                 case Failed(_) => None
                 case Value(n, length) =>
                   match ParseList(raw[length..])
                   case None => None
                   case Some(list) => Some((n % U64_SIZE, list))
  {
    var decoded := VarintDecode(raw);
    if decoded.Failed? {
      return None;
    }
    var list := ParseInscriptions(raw[decoded.length..]);
    if list.None? {
      return None;
    }
    return Some((decoded.n % U64_SIZE, list.value));
  }

  // ---------- round trip ----------

  lemma ParseEncodedOne(i: Inscription, rest: seq<Byte>)
    ensures ParseOne(EncodeOne(i) + rest) == Some((i, |EncodeOne(i)|))
  {
    var bytes := EncodeOne(i) + rest;
    assert bytes[..4] == ToBe(i.sequence) && bytes[4..] == Encode(i.offset) + rest;
    FromToBe(i.sequence);
    DecodeEncode(i.offset, rest);
  }

  lemma {:induction false} ParseEncodedList(list: seq<Inscription>)
    ensures ParseList(EncodeList(list)) == Some(list)
  {
    if list != [] {
      FlatFront(list[0], list[1..], EncodeOne);
      assert [list[0]] + list[1..] == list;
      ParseEncodedOne(list[0], EncodeList(list[1..]));
      ParseEncodedList(list[1..]);
      assert EncodeList(list)[|EncodeOne(list[0])|..] == EncodeList(list[1..]);
    }
  }

  lemma EntryRoundTrip(value: U64, list: seq<Inscription>)
    ensures var bytes := EncodeEntry(value, list);
            Decode(bytes) == Value(value, |Encode(value)|) && ParseList(bytes[|Encode(value)|..]) == Some(list)
  {
    DecodeEncode(value, EncodeList(list));
    ParseEncodedList(list);
    assert EncodeEntry(value, list)[|Encode(value)|..] == EncodeList(list);
  }

  /** Both readers give back the value and every inscription of a built entry, in order. */
  method ReadBack(entry: UtxoEntryBuf)
    returns (value: U64, inscriptions: seq<Inscription>, raw: (U64, seq<Inscription>))
    requires entry.Built()
    ensures value == entry.value && inscriptions == entry.list && raw == (entry.value, entry.list)
  {
    EntryRoundTrip(entry.value, entry.list);
    var parsed := Parse(entry.vec);
    var list := ParseInscriptions(parsed.value.1);
    var read := GetUtxoEntryFromRaw(entry.vec);
    return parsed.value.0, list.value, read.value;
  }

}
