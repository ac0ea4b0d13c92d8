/** Inscriptions and the reveal scripts that carry them, at the level of script instructions. Pushing a slice
    yields one push instruction, and OP_FALSE reads back as an empty push. */
module Inscriptions {
  import opened Wrappers
  import opened Bytes
  import opened Sequences

  datatype Instruction = PushBytes(bytes: seq<Byte>) | Op(code: Byte) | Broken

  const OP_PUSHNUM_NEG1: Byte := 0x4f
  const OP_PUSHNUM_1: Byte := 0x51
  const OP_PUSHNUM_16: Byte := 0x60
  const OP_IF: Byte := 0x63
  const OP_ENDIF: Byte := 0x68

  const MAX_SCRIPT_ELEMENT_SIZE: nat := 520

  /** The text ord. */
  const PROTOCOL_ID: seq<Byte> := [111, 114, 100]
  const BODY_TAG: seq<Byte> := []

  datatype Inscription = Inscription(
    body: Option<seq<Byte>>,
    contentEncoding: Option<seq<Byte>>,
    contentType: Option<seq<Byte>>,
    delegate: Option<seq<Byte>>,
    duplicateField: bool,
    incompleteField: bool,
    metadata: Option<seq<Byte>>,
    metaprotocol: Option<seq<Byte>>,
    parents: seq<seq<Byte>>,
    pointer: Option<seq<Byte>>,
    properties: Option<seq<Byte>>,
    rune: Option<seq<Byte>>,
    unrecognizedEvenField: bool
  )

  datatype Tag =
    | Pointer | ContentType | Parent | Metadata | Metaprotocol | ContentEncoding | Delegate | Rune | Properties

  function TagByte(tag: Tag): Byte {
    match tag
    case Pointer => 2
    case ContentType => 1
    case Parent => 3
    case Metadata => 5
    case Metaprotocol => 7
    case ContentEncoding => 9
    case Delegate => 11
    case Rune => 13
    case Properties => 17
  }

  function TagBytes(tag: Tag): (bytes: seq<Byte>)
    ensures bytes != []
  {
    [TagByte(tag)]
  }

  predicate Chunked(tag: Tag) {
    tag == Metadata || tag == Properties
  }

  // ---------- chunks ----------

  function Chunks(value: seq<Byte>): seq<seq<Byte>> {
    if value == [] then []
    else if |value| <= MAX_SCRIPT_ELEMENT_SIZE then [value]
    else [value[..MAX_SCRIPT_ELEMENT_SIZE]] + Chunks(value[MAX_SCRIPT_ELEMENT_SIZE..])
  }

  function Flatten(parts: seq<seq<Byte>>): seq<Byte> {
    if parts == [] then [] else parts[0] + Flatten(parts[1..])
  }

  /** Chunks join to the value, are pushable, and are more than one exactly when the value is too long for
      one; only the empty value has none. */
  lemma {:induction false} ChunksJoin(value: seq<Byte>)
    ensures Flatten(Chunks(value)) == value
    ensures forall i :: 0 <= i < |Chunks(value)| ==> 0 < |Chunks(value)[i]| <= MAX_SCRIPT_ELEMENT_SIZE
    ensures |Chunks(value)| > 1 <==> |value| > MAX_SCRIPT_ELEMENT_SIZE
    ensures Chunks(value) == [] <==> value == []
  {
    if value == [] {
    } else if |value| <= MAX_SCRIPT_ELEMENT_SIZE {
      assert [value][1..] == [] && Flatten([value]) == value + [];
    } else {
      ChunksJoin(value[MAX_SCRIPT_ELEMENT_SIZE..]);
      assert Chunks(value)[1..] == Chunks(value[MAX_SCRIPT_ELEMENT_SIZE..]);
    }
  }

  // ---------- what is printed ----------

  /** The pushes of one tag, in order. */
  datatype Segment = Segment(tag: Tag, values: seq<seq<Byte>>)

  function Single(value: Option<seq<Byte>>): seq<seq<Byte>> {
    match value
    case None => []
    case Some(v) => [v]
  }

  function InChunks(value: Option<seq<Byte>>): seq<seq<Byte>> {
    match value
    case None => []
    case Some(v) => Chunks(v)
  }

  function Segments(i: Inscription): seq<Segment> {
    [Segment(ContentType, Single(i.contentType)),
     Segment(ContentEncoding, Single(i.contentEncoding)),
     Segment(Metaprotocol, Single(i.metaprotocol)),
     Segment(Parent, i.parents),
     Segment(Delegate, Single(i.delegate)),
     Segment(Pointer, Single(i.pointer)),
     Segment(Metadata, InChunks(i.metadata)),
     Segment(Rune, Single(i.rune)),
     Segment(Properties, InChunks(i.properties))]
  }

  /** Tag and value, for every value. */
  function SegmentPushes(tag: Tag, values: seq<seq<Byte>>): seq<seq<Byte>> {
    if values == [] then []
    else SegmentPushes(tag, values[..|values| - 1]) + [TagBytes(tag), values[|values| - 1]]
  }

  function FieldPushes(segments: seq<Segment>): seq<seq<Byte>> {
    if segments == [] then []
    else
      var last := segments[|segments| - 1];
      FieldPushes(segments[..|segments| - 1]) + SegmentPushes(last.tag, last.values)
  }

  function BodyPushes(body: Option<seq<Byte>>): seq<seq<Byte>> {
    match body
    case None => []
    case Some(b) => [BODY_TAG] + Chunks(b)
  }

  function Payload(i: Inscription): seq<seq<Byte>> {
    FieldPushes(Segments(i)) + BodyPushes(i.body)
  }

  function Pushes(payload: seq<seq<Byte>>): (s: seq<Instruction>)
    ensures |s| == |payload|
  {
    seq(|payload|, k requires 0 <= k < |payload| => PushBytes(payload[k]))
  }

  /** The instructions of one inscription. */
  function RevealScript(i: Inscription): seq<Instruction> {
    [PushBytes([]), Op(OP_IF), PushBytes(PROTOCOL_ID)] + Pushes(Payload(i)) + [Op(OP_ENDIF)]
  }

  function BatchScript(inscriptions: seq<Inscription>): seq<Instruction> {
    Flat(inscriptions, RevealScript)
  }

  // ---------- the printer ----------

  lemma PushesConcat(a: seq<seq<Byte>>, b: seq<seq<Byte>>)
    ensures Pushes(a + b) == Pushes(a) + Pushes(b)
  {
  }

  method AppendArray(tag: Tag, builder: seq<Instruction>, values: seq<seq<Byte>>) returns (out: seq<Instruction>)
    ensures out == builder + Pushes(SegmentPushes(tag, values))
  {
    out := builder;
    for k := 0 to |values|
      invariant out == builder + Pushes(SegmentPushes(tag, values[..k]))
    {
      assert values[..k + 1][..k] == values[..k];
      PushesConcat(SegmentPushes(tag, values[..k]), [TagBytes(tag), values[k]]);
      out := out + [PushBytes(TagBytes(tag)), PushBytes(values[k])];
    }
    assert values[..|values|] == values;
  }

  /** A field is pushed once, or chunk by chunk, each chunk under its own tag. */
  method Append(tag: Tag, builder: seq<Instruction>, value: Option<seq<Byte>>) returns (out: seq<Instruction>)
    ensures out == builder + Pushes(SegmentPushes(tag, if Chunked(tag) then InChunks(value) else Single(value)))
  {
    if value.None? {
      return builder;
    }
    if Chunked(tag) {
      out := AppendArray(tag, builder, Chunks(value.value));
    } else {
      assert [value.value][..0] == [];
      out := builder + [PushBytes(TagBytes(tag)), PushBytes(value.value)];
    }
  }

  /** The first k segments have been printed. */
  ghost predicate Printed(builder: seq<Instruction>, out: seq<Instruction>, segments: seq<Segment>, k: nat) {
    k <= |segments| && out == builder + Pushes(FieldPushes(segments[..k]))
  }

  lemma PrintedNext(builder: seq<Instruction>, out: seq<Instruction>, segments: seq<Segment>, k: nat, tag: Tag,
                    values: seq<seq<Byte>>)
    requires k < |segments| && segments[k] == Segment(tag, values) && Printed(builder, out, segments, k)
    ensures Printed(builder, out + Pushes(SegmentPushes(tag, values)), segments, k + 1)
  {
    assert segments[..k + 1][..k] == segments[..k];
    PushesConcat(FieldPushes(segments[..k]), SegmentPushes(tag, values));
  }

  method AppendOne(tag: Tag, start: seq<Instruction>, builder: seq<Instruction>, value: Option<seq<Byte>>,
                   ghost s: seq<Segment>, ghost k: nat)
    returns (out: seq<Instruction>)
    requires Printed(start, builder, s, k) && k < |s|
    requires s[k] == Segment(tag, if Chunked(tag) then InChunks(value) else Single(value))
    ensures Printed(start, out, s, k + 1)
  {
    out := Append(tag, builder, value);
    PrintedNext(start, builder, s, k, tag, if Chunked(tag) then InChunks(value) else Single(value));
  }

  /** The nine fields, in the printer's order. */
  method AppendFields(i: Inscription, builder: seq<Instruction>) returns (out: seq<Instruction>)
    ensures out == builder + Pushes(FieldPushes(Segments(i)))
  {
    ghost var s := Segments(i);
    assert builder == builder + Pushes(FieldPushes(s[..0]));
    out := AppendOne(ContentType, builder, builder, i.contentType, s, 0);
    out := AppendOne(ContentEncoding, builder, out, i.contentEncoding, s, 1);
    out := AppendOne(Metaprotocol, builder, out, i.metaprotocol, s, 2);
    PrintedNext(builder, out, s, 3, Parent, i.parents);
    out := AppendArray(Parent, out, i.parents);
    out := AppendOne(Delegate, builder, out, i.delegate, s, 4);
    out := AppendOne(Pointer, builder, out, i.pointer, s, 5);
    out := AppendOne(Metadata, builder, out, i.metadata, s, 6);
    out := AppendOne(Rune, builder, out, i.rune, s, 7);
    out := AppendOne(Properties, builder, out, i.properties, s, 8);
    assert s[..9] == s;
  }

  method AppendRevealScriptToBuilder(i: Inscription, builder: seq<Instruction>) returns (out: seq<Instruction>)
    ensures out == builder + RevealScript(i)
  {
    var header := [PushBytes([]), Op(OP_IF), PushBytes(PROTOCOL_ID)];
    out := AppendFields(i, builder + header);
    if i.body.Some? {
      out := out + [PushBytes(BODY_TAG)];
      var chunks := Chunks(i.body.value);
      ghost var before := out;
      for k := 0 to |chunks|
        invariant out == before + Pushes(chunks[..k])
      {
        out := out + [PushBytes(chunks[k])];
      }
      assert chunks[..|chunks|] == chunks;
      PushesConcat([BODY_TAG], chunks);
    }
    PushesConcat(FieldPushes(Segments(i)), BodyPushes(i.body));
    out := out + [Op(OP_ENDIF)];
  }

  method AppendBatchRevealScriptToBuilder(inscriptions: seq<Inscription>, builder: seq<Instruction>)
    returns (out: seq<Instruction>)
    ensures out == builder + BatchScript(inscriptions)
  {
    out := builder;
    for k := 0 to |inscriptions|
      invariant out == builder + Flat(inscriptions[..k], RevealScript)
    {
      FlatPush(inscriptions, k, RevealScript);
      Associates(builder, Flat(inscriptions[..k], RevealScript), RevealScript(inscriptions[k]));
      out := AppendRevealScriptToBuilder(inscriptions[k], out);
    }
    assert inscriptions[..|inscriptions|] == inscriptions;
  }

}
