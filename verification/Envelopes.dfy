/** Reading inscriptions out of a script: envelopes are found among the instructions, and the pushes of an
    envelope are read as tagged fields up to an even position that is empty, then a body. */
module Envelopes {
  import opened Wrappers
  import opened Bytes
  import opened Inscriptions

  datatype Envelope<+T> = Envelope(input: nat, offset: nat, payload: T, pushnum: bool, stutter: bool)

  type RawEnvelope = Envelope<seq<seq<Byte>>>
  type ParsedEnvelope = Envelope<Inscription>

  /** What reading from an opening push gives: an error, or whether the next opening stutters, the envelope if
      there is one, and the instructions not consumed. */
  datatype Outcome = Failed | Read(stutter: bool, envelope: Option<RawEnvelope>, rest: seq<Instruction>)

  // ---------- finding envelopes ----------

  predicate IsPushnum(code: Byte) {
    code == OP_PUSHNUM_NEG1 || OP_PUSHNUM_1 <= code <= OP_PUSHNUM_16
  }

  function PushnumBytes(code: Byte): seq<Byte>
    requires IsPushnum(code)
  {
    if code == OP_PUSHNUM_NEG1 then [0x81] else [code - OP_PUSHNUM_1 + 1]
  }

  /** Pushes up to OP_ENDIF; any other opcode, or the end of the script, makes it no envelope. */
  function ReadPayload(items: seq<Instruction>, e: RawEnvelope): (r: Outcome)
    ensures r.Read? ==> |r.rest| <= |items|
  {
    if items == [] then Read(false, None, [])
    else
      var rest := items[1..];
      match items[0]
      case Broken => Failed
      case PushBytes(bytes) => ReadPayload(rest, e.(payload := e.payload + [bytes]))
      case Op(code) =>
        if code == OP_ENDIF then Read(false, Some(e), rest)
        else if IsPushnum(code) then ReadPayload(rest, e.(payload := e.payload + [PushnumBytes(code)], pushnum := true))
        else Read(false, None, rest)
  }

  predicate NextIs(items: seq<Instruction>, i: Instruction) {
    items != [] && items[0] == i
  }

  /** After an empty push: OP_IF, the protocol id, the payload. Only what is accepted is consumed. */
  function FromInstructions(items: seq<Instruction>, input: nat, offset: nat, stutter: bool): (r: Outcome)
    ensures r.Read? ==> |r.rest| <= |items|
  {
    if !NextIs(items, Op(OP_IF)) then Read(NextIs(items, PushBytes([])), None, items)
    else
      var inner := items[1..];
      if !NextIs(inner, PushBytes(PROTOCOL_ID)) then Read(NextIs(inner, PushBytes([])), None, inner)
      else ReadPayload(inner[1..], Envelope(input, offset, [], false, stutter))
  }

  function FromTapscript(items: seq<Instruction>, input: nat, found: seq<RawEnvelope>,
                         stuttered: bool): Result<seq<RawEnvelope>>
    decreases |items|
  {
    if items == [] then Ok(found)
    else if items[0] == Broken then Err
    else if items[0] != PushBytes([]) then FromTapscript(items[1..], input, found, stuttered)
    else
      match FromInstructions(items[1..], input, |found|, stuttered)
      case Failed => Err
      case Read(stutter, envelope, rest) =>
        match envelope
        case Some(e) => FromTapscript(rest, input, found + [e], stuttered)
        case None => FromTapscript(rest, input, found, stutter)
  }

  method ReadPayloadLoop(items: seq<Instruction>, input: nat, offset: nat, stutter: bool) returns (r: Outcome)
    ensures r == ReadPayload(items, Envelope(input, offset, [], false, stutter))
  {
    var pushnum, payload, i := false, [], 0;
    while i < |items|
      invariant i <= |items|
      invariant ReadPayload(items, Envelope(input, offset, [], false, stutter))
                == ReadPayload(items[i..], Envelope(input, offset, payload, pushnum, stutter))
    {
      var item := items[i];
      ghost var left := items[i..];
      assert left[1..] == items[i + 1..];
      i := i + 1;
      match item {
        case Broken => return Failed;
        case PushBytes(bytes) => payload := payload + [bytes];
        case Op(code) =>
          if code == OP_ENDIF {
            return Read(false, Some(Envelope(input, offset, payload, pushnum, stutter)), items[i..]);
          } else if IsPushnum(code) {
            pushnum := true;
            payload := payload + [PushnumBytes(code)];
          } else {
            return Read(false, None, items[i..]);
          }
      }
    }
    return Read(false, None, []);
  }

  method ParseTapscript(script: seq<Instruction>, input: nat) returns (r: Result<seq<RawEnvelope>>)
    ensures r == FromTapscript(script, input, [], false)
  {
    var items, envelopes, stuttered := script, [], false;
    while items != []
      invariant FromTapscript(script, input, [], false) == FromTapscript(items, input, envelopes, stuttered)
      decreases |items|
    {
      var item := items[0];
      ghost var before := items;
      items := items[1..];
      if item == Broken {
        return Err;
      }
      if item == PushBytes([]) {
        var outcome := ReadEnvelope(items, input, |envelopes|, stuttered);
        match outcome {
          case Failed => return Err;
          case Read(stutter, envelope, rest) =>
            items := rest;
            match envelope {
              case Some(e) => envelopes := envelopes + [e];
              case None => stuttered := stutter;
            }
        }
      }
    }
    return Ok(envelopes);
  }

  method ReadEnvelope(items: seq<Instruction>, input: nat, offset: nat, stutter: bool) returns (r: Outcome)
    ensures r == FromInstructions(items, input, offset, stutter)
  {
    if !NextIs(items, Op(OP_IF)) {
      return Read(NextIs(items, PushBytes([])), None, items);
    }
    var inner := items[1..];
    if !NextIs(inner, PushBytes(PROTOCOL_ID)) {
      return Read(NextIs(inner, PushBytes([])), None, inner);
    }
    r := ReadPayloadLoop(inner[1..], input, offset, stutter);
  }

  // ---------- reading the payload ----------

  type Fields = map<seq<Byte>, seq<seq<Byte>>>

  /** The first even position that is empty, or the length. */
  function BodyAt(payload: seq<seq<Byte>>, i: nat): (k: nat)
    requires i <= |payload|
    ensures i <= k <= |payload|
    ensures k < |payload| ==> (k - i) % 2 == 0
    decreases |payload| - i
  {
    if i == |payload| || payload[i] == [] then i
    else if i + 1 == |payload| then i + 1
    else BodyAt(payload, i + 2)
  }

  function Add(fields: Fields, key: seq<Byte>, value: seq<Byte>): Fields {
    fields[key := (if key in fields then fields[key] else []) + [value]]
  }

  /** The fields of the first n pairs of pushes. */
  function Gather(payload: seq<seq<Byte>>, n: nat): Fields
    requires 2 * n <= |payload|
  {
    if n == 0 then map[] else Add(Gather(payload, n - 1), payload[2 * n - 2], payload[2 * n - 1])
  }

  /** The first value of a plain tag, all values of a chunked tag joined. */
  function Value(fields: Fields, tag: Tag): Option<seq<Byte>> {
    if TagBytes(tag) !in fields || fields[TagBytes(tag)] == [] then None
    else if Chunked(tag) then Some(Flatten(fields[TagBytes(tag)]))
    else Some(fields[TagBytes(tag)][0])
  }

  /** Chunked tags and parents are taken whole. */
  predicate TakenWhole(tag: Tag) {
    Chunked(tag) || tag == Parent
  }

  /** What is left of the fields once the value is taken. */
  function Without(fields: Fields, tag: Tag): Fields {
    var key := TagBytes(tag);
    if key !in fields then fields
    else if TakenWhole(tag) || |fields[key]| == 1 then fields - {key}
    else if fields[key] == [] then fields
    else fields[key := fields[key][1..]]
  }

  predicate IsEven(key: seq<Byte>) {
    key != [] && key[0] % 2 == 0
  }

  predicate HasEven(fields: Fields) {
    exists key :: key in fields && IsEven(key)
  }

  predicate HasDuplicate(fields: Fields) {
    exists key :: key in fields && |fields[key]| > 1
  }

  function ParseFields(fields: Fields, body: Option<seq<Byte>>, incomplete: bool): Inscription {
    Inscription(body, Value(fields, ContentEncoding), Value(fields, ContentType), Value(fields, Delegate),
                HasDuplicate(fields), incomplete, Value(fields, Metadata), Value(fields, Metaprotocol),
                if TagBytes(Parent) in fields then fields[TagBytes(Parent)] else [],
                Value(fields, Pointer), Value(fields, Properties), Value(fields, Rune),
                HasEven(Without(fields, Pointer)))
  }

  function ParsePayload(payload: seq<seq<Byte>>): Inscription {
    var k := BodyAt(payload, 0);
    var fields := Gather(payload, k / 2);
    ParseFields(fields, if k < |payload| then Some(Flatten(payload[k + 1..])) else None, k % 2 == 1)
  }

  function Parse(e: RawEnvelope): ParsedEnvelope {
    Envelope(e.input, e.offset, ParsePayload(e.payload), e.pushnum, e.stutter)
  }

}
