/** What the parser makes of what the printer wrote. */
module EnvelopeRoundTrip {
  import opened Wrappers
  import opened Bytes
  import opened Sequences
  import opened Inscriptions
  import opened Envelopes

  // ---------- the field map, loop by loop ----------

  method Take(fields: Fields, tag: Tag) returns (value: Option<seq<Byte>>, rest: Fields)
    requires tag != Parent
    ensures value == Value(fields, tag) && rest == Without(fields, tag)
  {
    var key := TagBytes(tag);
    if key !in fields {
      return None, fields;
    }
    var values := fields[key];
    if Chunked(tag) {
      return if |values| == 0 then None else Some(Flatten(values)), fields - {key};
    }
    if |values| == 0 {
      return None, fields;
    }
    value := Some(values[0]);
    values := values[1..];
    rest := if |values| == 0 then fields - {key} else fields[key := values];
  }

  /** The fields other than those of odd tags that are taken. */
  ghost predicate SameEven(a: Fields, b: Fields) {
    forall key :: IsEven(key) ==> (key in a <==> key in b)
  }

  predicate SameField(a: Fields, b: Fields, tag: Tag) {
    && (TagBytes(tag) in a <==> TagBytes(tag) in b)
    && (TagBytes(tag) in a && TagBytes(tag) in b ==> a[TagBytes(tag)] == b[TagBytes(tag)])
  }

  /** Taking one tag leaves every other tag, and taking an odd tag leaves the even keys. */
  lemma WithoutLeaves(fields: Fields, tag: Tag, other: Tag)
    ensures tag != other ==> SameField(Without(fields, tag), fields, other)
    ensures tag != Pointer ==> SameEven(Without(fields, tag), fields)
  {
  }

  lemma SameFieldValue(a: Fields, b: Fields, tag: Tag)
    requires SameField(a, b, tag)
    ensures Value(a, tag) == Value(b, tag)
  {
  }

  /** Taking a list of other tags first does not matter. */
  function WithoutAll(fields: Fields, tags: seq<Tag>): Fields {
    if tags == [] then fields else Without(WithoutAll(fields, tags[..|tags| - 1]), tags[|tags| - 1])
  }

  lemma {:induction false} WithoutAllLeaves(fields: Fields, tags: seq<Tag>, other: Tag)
    requires other !in tags
    ensures SameField(WithoutAll(fields, tags), fields, other)
  {
    if tags != [] {
      WithoutAllLeaves(fields, tags[..|tags| - 1], other);
      WithoutLeaves(WithoutAll(fields, tags[..|tags| - 1]), tags[|tags| - 1], other);
    }
  }

  method TakeArray(fields: Fields, tag: Tag) returns (values: seq<seq<Byte>>, rest: Fields)
    requires tag == Parent
    ensures values == if TagBytes(tag) in fields then fields[TagBytes(tag)] else []
    ensures rest == Without(fields, tag)
  {
    if TagBytes(tag) !in fields {
      return [], fields;
    }
    return fields[TagBytes(tag)], fields - {TagBytes(tag)};
  }

  predicate Distinct(tags: seq<Tag>) {
    forall i, j :: 0 <= i < j < |tags| ==> tags[i] != tags[j]
  }

  method TakeNext(all: Fields, fields: Fields, tag: Tag, ghost tags: seq<Tag>, ghost k: nat)
    returns (value: Option<seq<Byte>>, rest: Fields)
    requires k < |tags| && tags[k] == tag != Parent && Distinct(tags) && fields == WithoutAll(all, tags[..k])
    ensures value == Value(all, tag) && rest == WithoutAll(all, tags[..k + 1])
  {
    assert tags[..k + 1][..k] == tags[..k];
    WithoutAllLeaves(all, tags[..k], tag);
    SameFieldValue(fields, all, tag);
    value, rest := Take(fields, tag);
  }

  method TakeParents(all: Fields, fields: Fields, ghost tags: seq<Tag>, ghost k: nat)
    returns (values: seq<seq<Byte>>, rest: Fields)
    requires k < |tags| && tags[k] == Parent && Distinct(tags) && fields == WithoutAll(all, tags[..k])
    ensures values == if TagBytes(Parent) in all then all[TagBytes(Parent)] else []
    ensures rest == WithoutAll(all, tags[..k + 1])
  {
    assert tags[..k + 1][..k] == tags[..k];
    WithoutAllLeaves(all, tags[..k], Parent);
    values, rest := TakeArray(fields, Parent);
  }

  const TAKEN: seq<Tag> := [ContentEncoding, ContentType, Delegate, Metadata, Metaprotocol, Parent, Pointer, Properties,
                            Rune]

  /** Only the pointer tag is even. */
  lemma {:induction false} EvenLeft(fields: Fields, tags: seq<Tag>)
    requires Distinct(tags)
    ensures SameEven(WithoutAll(fields, tags), if Pointer in tags then Without(fields, Pointer) else fields)
  {
    if tags != [] {
      var front, last := tags[..|tags| - 1], tags[|tags| - 1];
      EvenLeft(fields, front);
      WithoutLeaves(WithoutAll(fields, front), last, Pointer);
      if last == Pointer {
        WithoutAllLeaves(fields, front, Pointer);
      }
    }
  }

  lemma SameEvenHas(a: Fields, b: Fields)
    requires SameEven(a, b)
    ensures HasEven(a) == HasEven(b)
  {
  }

  /** The order in which the recognized tags are taken. */
  predicate TakingOrder(tags: seq<Tag>) {
    && |tags| == 9 && Distinct(tags) && Pointer in tags
    && tags[0] == ContentEncoding && tags[1] == ContentType && tags[2] == Delegate && tags[3] == Metadata
    && tags[4] == Metaprotocol && tags[5] == Parent && tags[6] == Pointer && tags[7] == Properties && tags[8] == Rune
  }

  lemma TakenInOrder()
    ensures TakingOrder(TAKEN)
  {
    assert TAKEN[6] == Pointer;
  }

  /** After the nine tags, an even key is left exactly when one is left without the pointer. */
  lemma EvenLeftOver(all: Fields, left: Fields, tags: seq<Tag>)
    requires TakingOrder(tags) && left == WithoutAll(all, tags[..9])
    ensures HasEven(left) == HasEven(Without(all, Pointer))
  {
    assert tags[..9] == tags;
    EvenLeft(all, tags);
    SameEvenHas(left, Without(all, Pointer));
  }

  /** The first five of the nine tags. */
  method TakeFirst(all: Fields, ghost tags: seq<Tag>)
    returns (contentEncoding: Option<seq<Byte>>, contentType: Option<seq<Byte>>, delegate: Option<seq<Byte>>,
             metadata: Option<seq<Byte>>, metaprotocol: Option<seq<Byte>>, rest: Fields)
    requires TakingOrder(tags)
    ensures contentEncoding == Value(all, ContentEncoding) && contentType == Value(all, ContentType)
    ensures delegate == Value(all, Delegate)
    ensures metadata == Value(all, Metadata) && metaprotocol == Value(all, Metaprotocol)
    ensures rest == WithoutAll(all, tags[..5])
  {
    contentEncoding, rest := TakeNext(all, all, ContentEncoding, tags, 0);
    contentType, rest := TakeNext(all, rest, ContentType, tags, 1);
    delegate, rest := TakeNext(all, rest, Delegate, tags, 2);
    metadata, rest := TakeNext(all, rest, Metadata, tags, 3);
    metaprotocol, rest := TakeNext(all, rest, Metaprotocol, tags, 4);
  }

  /** The other four. */
  method TakeLast(all: Fields, fields: Fields, ghost tags: seq<Tag>)
    returns (parents: seq<seq<Byte>>, pointer: Option<seq<Byte>>, properties: Option<seq<Byte>>,
             rune: Option<seq<Byte>>, rest: Fields)
    requires TakingOrder(tags) && fields == WithoutAll(all, tags[..5])
    ensures parents == if TagBytes(Parent) in all then all[TagBytes(Parent)] else []
    ensures pointer == Value(all, Pointer) && properties == Value(all, Properties) && rune == Value(all, Rune)
    ensures rest == WithoutAll(all, tags[..9])
  {
    parents, rest := TakeParents(all, fields, tags, 5);
    pointer, rest := TakeNext(all, rest, Pointer, tags, 6);
    properties, rest := TakeNext(all, rest, Properties, tags, 7);
    rune, rest := TakeNext(all, rest, Rune, tags, 8);
  }

  /** Taking the nine recognized tags from the fields. */
  method TakeFields(all: Fields, body: Option<seq<Byte>>, incomplete: bool, duplicate: bool, ghost tags: seq<Tag>)
    returns (i: Inscription)
    requires duplicate == HasDuplicate(all) && TakingOrder(tags)
    ensures i == ParseFields(all, body, incomplete)
  {
    var contentEncoding, contentType, delegate, metadata, metaprotocol, others := TakeFirst(all, tags);
    var parents, pointer, properties, rune, left := TakeLast(all, others, tags);
    EvenLeftOver(all, left, tags);
    var unrecognized := exists key :: key in left && IsEven(key);
    i := Inscription(body, contentEncoding, contentType, delegate, duplicate, incomplete, metadata, metaprotocol,
                     parents, pointer, properties, rune, unrecognized);
  }

  /** The pairs before the body; an odd push is an incomplete field. */
  method GatherPairs(payload: seq<seq<Byte>>, k: nat) returns (fields: Fields, incomplete: bool)
    requires k <= |payload|
    ensures fields == Gather(payload, k / 2) && (incomplete <==> k % 2 == 1)
  {
    fields, incomplete := map[], false;
    var i := 0;
    while i < k
      invariant i <= k && (incomplete <==> i % 2 == 1) && (incomplete ==> i == k)
      invariant fields == Gather(payload, i / 2)
    {
      if k - i >= 2 {
        fields := Add(fields, payload[i], payload[i + 1]);
        i := i + 2;
      } else {
        incomplete := true;
        i := i + 1;
      }
    }
  }

  /** The parser: where the body starts, the pairs before it, then the tags. */
  method ParseEnvelope(e: RawEnvelope) returns (p: ParsedEnvelope)
    ensures p == Parse(e)
  {
    var k := BodyAt(e.payload, 0);
    var fields, incomplete := GatherPairs(e.payload, k);
    var body := if k < |e.payload| then Some(Flatten(e.payload[k + 1..])) else None;
    var duplicate := exists key :: key in fields && |fields[key]| > 1;
    TakenInOrder();
    var inscription := TakeFields(fields, body, incomplete, duplicate, TAKEN);
    return Envelope(e.input, e.offset, inscription, e.pushnum, e.stutter);
  }

  // ---------- gathering what was printed ----------

  function AddAll(fields: Fields, key: seq<Byte>, values: seq<seq<Byte>>): Fields {
    if values == [] then fields else Add(AddAll(fields, key, values[..|values| - 1]), key, values[|values| - 1])
  }

  lemma {:induction false} GatherSame(a: seq<seq<Byte>>, b: seq<seq<Byte>>, n: nat)
    requires 2 * n <= |a| && 2 * n <= |b| && a[..2 * n] == b[..2 * n]
    ensures Gather(a, n) == Gather(b, n)
  {
    if n > 0 {
      assert a[..2 * n][..2 * n - 2] == a[..2 * n - 2] && b[..2 * n][..2 * n - 2] == b[..2 * n - 2];
      assert a[..2 * n][2 * n - 2] == b[..2 * n][2 * n - 2] && a[..2 * n][2 * n - 1] == b[..2 * n][2 * n - 1];
      GatherSame(a, b, n - 1);
    }
  }

  lemma GatherPair(payload: seq<seq<Byte>>, n: nat, key: seq<Byte>, value: seq<Byte>)
    requires |payload| == 2 * n
    ensures Gather(payload + [key, value], n + 1) == Add(Gather(payload, n), key, value)
  {
    GatherSame(payload + [key, value], payload, n);
  }

  /** Gathering one more segment adds its values under its tag. */
  lemma {:induction false} GatherSegment(front: seq<seq<Byte>>, n: nat, tag: Tag, values: seq<seq<Byte>>)
    requires |front| == 2 * n
    ensures |SegmentPushes(tag, values)| == 2 * |values|
    ensures Gather(front + SegmentPushes(tag, values), n + |values|) == AddAll(Gather(front, n), TagBytes(tag), values)
  {
    if values == [] {
      assert front + [] == front;
    } else {
      var m := |values| - 1;
      GatherSegment(front, n, tag, values[..m]);
      Associates(front, SegmentPushes(tag, values[..m]), [TagBytes(tag), values[m]]);
      GatherPair(front + SegmentPushes(tag, values[..m]), n + m, TagBytes(tag), values[m]);
    }
  }

  /** What a field map holds under a key: nothing, or a non-empty list. */
  function Under(fields: Fields, key: seq<Byte>): seq<seq<Byte>> {
    if key in fields then fields[key] else []
  }

  /** Every key is a tag and has values. */
  predicate Tidy(fields: Fields) {
    forall key :: key in fields ==> fields[key] != [] && IsTag(key)
  }

  predicate IsTag(key: seq<Byte>) {
    key in {TagBytes(Pointer), TagBytes(ContentType), TagBytes(Parent), TagBytes(Metadata), TagBytes(Metaprotocol),
            TagBytes(ContentEncoding), TagBytes(Delegate), TagBytes(Rune), TagBytes(Properties)}
  }

  lemma {:induction false} AddAllUnder(fields: Fields, key: seq<Byte>, values: seq<seq<Byte>>, other: seq<Byte>)
    ensures Under(AddAll(fields, key, values), other) == Under(fields, other) + if key == other then values else []
  {
    if values == [] {
      assert Under(fields, other) + [] == Under(fields, other);
    } else {
      var m := |values| - 1;
      AddAllUnder(fields, key, values[..m], other);
      assert values == values[..m] + [values[m]];
    }
  }

  lemma {:induction false} AddAllTidy(fields: Fields, tag: Tag, values: seq<seq<Byte>>)
    requires Tidy(fields)
    ensures Tidy(AddAll(fields, TagBytes(tag), values))
  {
    if values != [] {
      AddAllTidy(fields, tag, values[..|values| - 1]);
    }
  }

  /** All values pushed under a tag, in order. */
  function ValuesOf(segments: seq<Segment>, tag: Tag): seq<seq<Byte>> {
    if segments == [] then []
    else
      var last := segments[|segments| - 1];
      ValuesOf(segments[..|segments| - 1], tag) + if last.tag == tag then last.values else []
  }

  lemma TagBytesInjective(a: Tag, b: Tag)
    ensures TagBytes(a) == TagBytes(b) <==> a == b
  {
  }

  function Gathered(segments: seq<Segment>): Fields {
    Gather(FieldPushes(segments), |FieldPushes(segments)| / 2)
  }

  lemma GatheredNext(segments: seq<Segment>)
    requires segments != [] && |FieldPushes(segments[..|segments| - 1])| % 2 == 0
    ensures var last := segments[|segments| - 1];
            && |FieldPushes(segments)| % 2 == 0
            && Gathered(segments) == AddAll(Gathered(segments[..|segments| - 1]), TagBytes(last.tag), last.values)
  {
    var front, last := FieldPushes(segments[..|segments| - 1]), segments[|segments| - 1];
    GatherSegment(front, |front| / 2, last.tag, last.values);
  }

  /** The fields gathered from printed segments: under each tag exactly its values, and no other key. */
  lemma {:induction false} GatherSegments(segments: seq<Segment>, tag: Tag)
    ensures |FieldPushes(segments)| % 2 == 0
    ensures Under(Gathered(segments), TagBytes(tag)) == ValuesOf(segments, tag) && Tidy(Gathered(segments))
  {
    if segments != [] {
      var front, last := segments[..|segments| - 1], segments[|segments| - 1];
      GatherSegments(front, tag);
      GatheredNext(segments);
      AddAllUnder(Gathered(front), TagBytes(last.tag), last.values, TagBytes(tag));
      AddAllTidy(Gathered(front), last.tag, last.values);
      TagBytesInjective(last.tag, tag);
    }
  }

  // ---------- where the body starts ----------

  predicate EvenFilled(payload: seq<seq<Byte>>) {
    forall i :: 0 <= i < |payload| && i % 2 == 0 ==> payload[i] != []
  }

  lemma {:induction false} BodyAfterFields(fields: seq<seq<Byte>>, body: seq<seq<Byte>>, i: nat)
    requires i <= |fields| && i % 2 == 0 && |fields| % 2 == 0 && EvenFilled(fields)
    requires body == [] || body[0] == []
    ensures BodyAt(fields + body, i) == |fields|
    decreases |fields| - i
  {
    if i < |fields| {
      BodyAfterFields(fields, body, i + 2);
    }
  }

  lemma PairFilled(front: seq<seq<Byte>>, pair: seq<seq<Byte>>)
    requires EvenFilled(front) && |front| % 2 == 0 && |pair| == 2 && pair[0] != []
    ensures EvenFilled(front + pair)
  {
  }

  lemma {:induction false} SegmentFilled(front: seq<seq<Byte>>, tag: Tag, values: seq<seq<Byte>>)
    requires EvenFilled(front) && |front| % 2 == 0
    ensures EvenFilled(front + SegmentPushes(tag, values)) && |SegmentPushes(tag, values)| % 2 == 0
  {
    if values == [] {
      assert front + [] == front;
    } else {
      var m := |values| - 1;
      var before, pair := SegmentPushes(tag, values[..m]), [TagBytes(tag), values[m]];
      SegmentFilled(front, tag, values[..m]);
      Associates(front, before, pair);
      PairFilled(front + before, pair);
    }
  }

  lemma {:induction false} FieldsFilled(segments: seq<Segment>)
    ensures EvenFilled(FieldPushes(segments)) && |FieldPushes(segments)| % 2 == 0
  {
    if segments != [] {
      var last := segments[|segments| - 1];
      FieldsFilled(segments[..|segments| - 1]);
      SegmentFilled(FieldPushes(segments[..|segments| - 1]), last.tag, last.values);
    }
  }

  // ---------- one inscription ----------

  /** What is printed under each tag. */
  function PrintedValues(i: Inscription, tag: Tag): seq<seq<Byte>> {
    match tag
    case ContentType => Single(i.contentType)
    case ContentEncoding => Single(i.contentEncoding)
    case Metaprotocol => Single(i.metaprotocol)
    case Parent => i.parents
    case Delegate => Single(i.delegate)
    case Pointer => Single(i.pointer)
    case Metadata => InChunks(i.metadata)
    case Rune => Single(i.rune)
    case Properties => InChunks(i.properties)
  }

  lemma {:induction false} ValuesOfDistinct(segments: seq<Segment>, tag: Tag, k: nat)
    requires k < |segments| && segments[k].tag == tag
    requires forall j :: 0 <= j < |segments| && j != k ==> segments[j].tag != tag
    ensures ValuesOf(segments, tag) == segments[k].values
  {
    if k < |segments| - 1 {
      ValuesOfDistinct(segments[..|segments| - 1], tag, k);
    } else {
      ValuesOfAbsent(segments[..|segments| - 1], tag);
    }
  }

  lemma {:induction false} ValuesOfAbsent(segments: seq<Segment>, tag: Tag)
    requires forall j :: 0 <= j < |segments| ==> segments[j].tag != tag
    ensures ValuesOf(segments, tag) == []
  {
    if segments != [] {
      ValuesOfAbsent(segments[..|segments| - 1], tag);
    }
  }

  function IndexOf(tag: Tag): nat {
    match tag
    case ContentType => 0
    case ContentEncoding => 1
    case Metaprotocol => 2
    case Parent => 3
    case Delegate => 4
    case Pointer => 5
    case Metadata => 6
    case Rune => 7
    case Properties => 8
  }

  lemma ValuesArePrinted(i: Inscription, tag: Tag)
    ensures ValuesOf(Segments(i), tag) == PrintedValues(i, tag)
  {
    ValuesOfDistinct(Segments(i), tag, IndexOf(tag));
  }

  lemma PrintedUnder(i: Inscription, tag: Tag)
    ensures Under(Gathered(Segments(i)), TagBytes(tag)) == PrintedValues(i, tag) && Tidy(Gathered(Segments(i)))
  {
    GatherSegments(Segments(i), tag);
    ValuesArePrinted(i, tag);
  }

  /** A chunked field of the empty value prints nothing, so it reads back as absent. */
  function Kept(value: Option<seq<Byte>>): Option<seq<Byte>> {
    if value == Some([]) then None else value
  }

  predicate IsLong(value: Option<seq<Byte>>) {
    value.Some? && |value.value| > MAX_SCRIPT_ELEMENT_SIZE
  }

  /** What parsing gives back: duplicate fields exactly for several parents or a long chunked field. */
  function ReadBack(i: Inscription): Inscription {
    i.(duplicateField := |i.parents| > 1 || IsLong(i.metadata) || IsLong(i.properties),
       incompleteField := false, unrecognizedEvenField := false,
       metadata := Kept(i.metadata), properties := Kept(i.properties))
  }

  lemma ValueOfUnder(fields: Fields, tag: Tag)
    requires Tidy(fields)
    ensures Value(fields, tag) == if Under(fields, TagBytes(tag)) == [] then None
                                  else if Chunked(tag) then Some(Flatten(Under(fields, TagBytes(tag))))
                                  else Some(Under(fields, TagBytes(tag))[0])
  {
  }

  lemma SingleReads(i: Inscription, tag: Tag, value: Option<seq<Byte>>)
    requires PrintedValues(i, tag) == Single(value) && !Chunked(tag)
    ensures Value(Gathered(Segments(i)), tag) == value
  {
    PrintedUnder(i, tag);
    ValueOfUnder(Gathered(Segments(i)), tag);
  }

  lemma ChunksRead(i: Inscription, tag: Tag, value: Option<seq<Byte>>)
    requires PrintedValues(i, tag) == InChunks(value) && Chunked(tag)
    ensures Value(Gathered(Segments(i)), tag) == Kept(value)
    ensures |Under(Gathered(Segments(i)), TagBytes(tag))| > 1 <==> IsLong(value)
  {
    PrintedUnder(i, tag);
    ValueOfUnder(Gathered(Segments(i)), tag);
    if value.Some? {
      ChunksJoin(value.value);
    }
  }

  lemma DuplicatesRead(i: Inscription)
    ensures HasDuplicate(Gathered(Segments(i))) <==> |i.parents| > 1 || IsLong(i.metadata) || IsLong(i.properties)
  {
    var fields := Gathered(Segments(i));
    ChunksRead(i, Metadata, i.metadata);
    ChunksRead(i, Properties, i.properties);
    PrintedUnder(i, Parent);
    PrintedUnder(i, ContentType);
    PrintedUnder(i, ContentEncoding);
    PrintedUnder(i, Metaprotocol);
    PrintedUnder(i, Delegate);
    PrintedUnder(i, Pointer);
    PrintedUnder(i, Rune);
  }

  lemma NoEvenLeft(i: Inscription)
    ensures !HasEven(Without(Gathered(Segments(i)), Pointer))
  {
    PrintedUnder(i, Pointer);
  }

  lemma FieldsRead(i: Inscription)
    ensures ParseFields(Gathered(Segments(i)), i.body, false) == ReadBack(i)
  {
    SingleReads(i, ContentType, i.contentType);
    SingleReads(i, ContentEncoding, i.contentEncoding);
    SingleReads(i, Metaprotocol, i.metaprotocol);
    SingleReads(i, Delegate, i.delegate);
    SingleReads(i, Pointer, i.pointer);
    SingleReads(i, Rune, i.rune);
    ChunksRead(i, Metadata, i.metadata);
    ChunksRead(i, Properties, i.properties);
    PrintedUnder(i, Parent);
    DuplicatesRead(i);
    NoEvenLeft(i);
  }

  /** The body starts right after the printed fields, and the fields are gathered from them alone. */
  lemma PayloadSplits(segments: seq<Segment>, body: Option<seq<Byte>>)
    ensures var fields, all := FieldPushes(segments), FieldPushes(segments) + BodyPushes(body);
            && BodyAt(all, 0) == |fields| && |fields| % 2 == 0 && Gather(all, |fields| / 2) == Gathered(segments)
            && (body.Some? <==> |fields| < |all|)
            && (body.Some? ==> Flatten(all[|fields| + 1..]) == body.value)
  {
    var fields := FieldPushes(segments);
    FieldsFilled(segments);
    BodyAfterFields(fields, BodyPushes(body), 0);
    GatherSame(fields + BodyPushes(body), fields, |fields| / 2);
    if body.Some? {
      assert (fields + BodyPushes(body))[|fields| + 1..] == Chunks(body.value);
      ChunksJoin(body.value);
    }
  }

  lemma PayloadReads(i: Inscription)
    ensures ParsePayload(Payload(i)) == ReadBack(i)
  {
    PayloadSplits(Segments(i), i.body);
    FieldsRead(i);
  }

  /** The round trip is exact if and only if no chunked field is present but empty, and the flags are what
      reading computes. */
  lemma ExactRoundTrip(i: Inscription)
    ensures ReadBack(i) == i <==>
              && i.metadata != Some([]) && i.properties != Some([])
              && !i.incompleteField && !i.unrecognizedEvenField
              && i.duplicateField == (|i.parents| > 1 || IsLong(i.metadata) || IsLong(i.properties))
  {
  }

}
