/** Printing a batch of inscriptions behind any script, and parsing the result. The reader, with its peeking iterator
    and its early returns, is an automaton that looks at one instruction at a time; running it over the script in front
    tells what becomes of the batch. */
module BatchRoundTrip {
  import opened Wrappers
  import opened Bytes
  import opened Sequences
  import opened Inscriptions
  import opened Envelopes
  import opened EnvelopeRoundTrip

  // ---------- the reader as an automaton ----------

  /** Between envelopes; after an empty push; after OP_IF behind it; within a payload; or at an error. */
  datatype State =
    | Outside(found: seq<RawEnvelope>, stuttered: bool)
    | Opened(found: seq<RawEnvelope>, stuttered: bool)
    | Iffed(found: seq<RawEnvelope>, stuttered: bool)
    | Within(found: seq<RawEnvelope>, stuttered: bool, envelope: RawEnvelope)
    | Dead

  const START := Outside([], false)

  function Look(found: seq<RawEnvelope>, stuttered: bool, i: Instruction): State {
    if i == Broken then Dead
    else if i == PushBytes([]) then Opened(found, stuttered)
    else Outside(found, stuttered)
  }

  /** No envelope after all: the instruction is looked at again. */
  function LookAgain(found: seq<RawEnvelope>, i: Instruction): State {
    Look(found, i == PushBytes([]), i)
  }

  function Next(st: State, input: nat, i: Instruction): State {
    match st
    case Dead => Dead
    case Outside(found, stuttered) => Look(found, stuttered, i)
    case Opened(found, stuttered) => if i == Op(OP_IF) then Iffed(found, stuttered) else LookAgain(found, i)
    case Iffed(found, stuttered) =>
      if i == PushBytes(PROTOCOL_ID) then Within(found, stuttered, Envelope(input, |found|, [], false, stuttered))
      else LookAgain(found, i)
    case Within(found, stuttered, e) =>
      match i
      case Broken => Dead
      case PushBytes(bytes) => Within(found, stuttered, e.(payload := e.payload + [bytes]))
      case Op(code) =>
        if code == OP_ENDIF then Outside(found + [e], stuttered)
        else if IsPushnum(code) then
          Within(found, stuttered, e.(payload := e.payload + [PushnumBytes(code)], pushnum := true))
        else Outside(found, false)
  }

  function Scan(st: State, input: nat, script: seq<Instruction>): State
    decreases |script|
  {
    if script == [] then st else Scan(Next(st, input, script[0]), input, script[1..])
  }

  /** What the reader found when the script ends here. */
  function Findings(st: State): Result<seq<RawEnvelope>> {
    if st.Dead? then Err else Ok(st.found)
  }

  function Continue(outcome: Outcome, input: nat, found: seq<RawEnvelope>, stuttered: bool): Result<seq<RawEnvelope>> {
    match outcome
    case Failed => Err
    case Read(stutter, Some(e), rest) => FromTapscript(rest, input, found + [e], stuttered)
    case Read(stutter, None, rest) => FromTapscript(rest, input, found, stutter)
  }

  /** What the reader does in each state with the rest of the script. */
  function Resume(st: State, input: nat, rest: seq<Instruction>): Result<seq<RawEnvelope>> {
    match st
    case Dead => Err
    case Outside(found, stuttered) => FromTapscript(rest, input, found, stuttered)
    case Opened(found, stuttered) => Continue(FromInstructions(rest, input, |found|, stuttered), input, found,
                                              stuttered)
    case Iffed(found, stuttered) =>
      if NextIs(rest, PushBytes(PROTOCOL_ID)) then
        Continue(ReadPayload(rest[1..], Envelope(input, |found|, [], false, stuttered)), input, found, stuttered)
      else FromTapscript(rest, input, found, NextIs(rest, PushBytes([])))
    case Within(found, stuttered, e) => Continue(ReadPayload(rest, e), input, found, stuttered)
  }

  lemma ResumeNext(st: State, input: nat, rest: seq<Instruction>)
    requires rest != []
    ensures Resume(st, input, rest) == Resume(Next(st, input, rest[0]), input, rest[1..])
  {
  }

  /** The reader is the automaton. */
  lemma {:induction false} ReaderScans(st: State, input: nat, script: seq<Instruction>)
    ensures Resume(st, input, script) == Findings(Scan(st, input, script))
    decreases |script|
  {
    if script != [] {
      ResumeNext(st, input, script);
      ReaderScans(Next(st, input, script[0]), input, script[1..]);
    }
  }

  lemma {:induction false} ScanParts(st: State, input: nat, a: seq<Instruction>, b: seq<Instruction>)
    ensures Scan(st, input, a + b) == Scan(Scan(st, input, a), input, b)
    decreases |a|
  {
    if a == [] {
      assert a + b == b;
    } else {
      assert (a + b)[1..] == a[1..] + b;
      ScanParts(Next(st, input, a[0]), input, a[1..], b);
    }
  }

  lemma ScanOne(st: State, input: nat, i: Instruction)
    ensures Scan(st, input, [i]) == Next(st, input, i)
  {
    assert [i][1..] == [];
    assert Scan(Next(st, input, i), input, []) == Next(st, input, i);
  }

  // ---------- one envelope ----------

  /** The instructions of a payload between header and end. */
  function Enclosed(payload: seq<seq<Byte>>): seq<Instruction> {
    HEADER + Pushes(payload) + [Op(OP_ENDIF)]
  }

  const HEADER: seq<Instruction> := [PushBytes([]), Op(OP_IF), PushBytes(PROTOCOL_ID)]

  lemma {:induction false} PushesWithin(st: State, input: nat, payload: seq<seq<Byte>>)
    requires st.Within?
    ensures Scan(st, input, Pushes(payload)) == st.(envelope := st.envelope.(payload := st.envelope.payload + payload))
    decreases |payload|
  {
    if payload == [] {
      assert st.envelope.payload + [] == st.envelope.payload;
    } else {
      assert Pushes(payload)[1..] == Pushes(payload[1..]);
      PushesWithin(Next(st, input, PushBytes(payload[0])), input, payload[1..]);
      assert st.envelope.payload + [payload[0]] + payload[1..] == st.envelope.payload + payload;
    }
  }

  /** Pushes that belong to no envelope find nothing, and the last of them leaves no stutter behind. */
  lemma {:induction false} PushesOutside(st: State, input: nat, payload: seq<seq<Byte>>)
    requires st.Opened? || (st.Outside? && !st.stuttered)
    ensures var last := Scan(st, input, Pushes(payload));
            (last.Opened? || (last.Outside? && !last.stuttered)) && last.found == st.found
    decreases |payload|
  {
    if payload != [] {
      assert Pushes(payload)[1..] == Pushes(payload[1..]);
      PushesOutside(Next(st, input, PushBytes(payload[0])), input, payload[1..]);
    }
  }

  /** Is the next opening taken for an opening, and does it stutter? */
  function Stutters(st: State): bool
    requires !st.Dead?
  {
    match st
    case Outside(_, stuttered) => stuttered
    case Within(_, _, _) => false
    case _ => true
  }

  lemma HeaderScanned(st: State, input: nat)
    requires !st.Dead?
    ensures Scan(st, input, HEADER) == if st.Within? then Outside(st.found, false)
                                       else
                                         Within(st.found, Stutters(st),
                                                Envelope(input, |st.found|, [], false, Stutters(st)))
  {
    var h := HEADER;
    assert h[1..] == [Op(OP_IF), PushBytes(PROTOCOL_ID)] && h[1..][1..] == [PushBytes(PROTOCOL_ID)];
    ScanOne(Next(Next(st, input, h[0]), input, h[1]), input, h[2]);
  }

  /** An envelope is found behind anything but an unfinished payload, which swallows its opening. */
  lemma EnclosedScanned(st: State, input: nat, payload: seq<seq<Byte>>)
    requires !st.Dead?
    ensures Scan(st, input, Enclosed(payload))
              == if st.Within? then Outside(st.found, false)
                 else Outside(st.found + [Envelope(input, |st.found|, payload, false, Stutters(st))], Stutters(st))
  {
    ScanParts(st, input, HEADER + Pushes(payload), [Op(OP_ENDIF)]);
    ScanParts(st, input, HEADER, Pushes(payload));
    HeaderScanned(st, input);
    var inside := Scan(st, input, HEADER);
    if st.Within? {
      PushesOutside(inside, input, payload);
    } else {
      PushesWithin(inside, input, payload);
      assert [] + payload == payload;
    }
    ScanOne(Scan(inside, input, Pushes(payload)), input, Op(OP_ENDIF));
  }

  // ---------- a batch ----------

  /** The envelopes a batch is read as: in order, numbered from the number found before. */
  function RawBatch<T>(list: seq<T>, payloadOf: T -> seq<seq<Byte>>, input: nat, from: nat,
                       stutter: bool): seq<RawEnvelope> {
    if list == [] then []
    else RawBatch(list[..|list| - 1], payloadOf, input, from, stutter)
           + [Envelope(input, from + |list| - 1, payloadOf(list[|list| - 1]), false, stutter)]
  }

  lemma {:induction false} RawBatchAt<T>(list: seq<T>, payloadOf: T -> seq<seq<Byte>>, input: nat, from: nat,
                                         stutter: bool)
    ensures |RawBatch(list, payloadOf, input, from, stutter)| == |list|
    ensures forall k :: 0 <= k < |list| ==>
              RawBatch(list, payloadOf, input, from, stutter)[k]
                == Envelope(input, from + k, payloadOf(list[k]), false, stutter)
  {
    if list != [] {
      RawBatchAt(list[..|list| - 1], payloadOf, input, from, stutter);
    }
  }

  /** How many inscriptions of the batch are lost: the first, behind an unfinished payload. */
  function Lost(st: State): nat {
    if st.Within? then 1 else 0
  }

  /** Where the automaton stands after a batch. */
  function AfterBatch<T>(st: State, list: seq<T>, payloadOf: T -> seq<seq<Byte>>, input: nat): State
    requires !st.Dead?
  {
    if list == [] then st
    else Outside(st.found + RawBatch(list[Lost(st)..], payloadOf, input, |st.found|, Stutters(st)), Stutters(st))
  }

  lemma AfterOneMore<T>(st: State, list: seq<T>, payloadOf: T -> seq<seq<Byte>>, input: nat)
    requires !st.Dead? && list != []
    ensures var before := AfterBatch(st, list[..|list| - 1], payloadOf, input);
            AfterBatch(st, list, payloadOf, input)
              == if before.Within? then Outside(before.found, false)
                 else Outside(before.found
                              + [Envelope(input, |before.found|, payloadOf(list[|list| - 1]), false, Stutters(before))],
                              Stutters(before))
  {
    var front, n := list[..|list| - 1], Lost(st);
    if front == [] {
      assert list == [list[0]];
      if st.Within? {
        assert list[n..] == [] && st.found + [] == st.found;
      } else {
        assert list[n..] == list && list[..0] == [];
        assert RawBatch(list, payloadOf, input, |st.found|, Stutters(st))
            == [Envelope(input, |st.found|, payloadOf(list[0]), false, Stutters(st))];
      }
    } else {
      assert list[n..][..|list| - n - 1] == front[n..];
      RawBatchAt(front[n..], payloadOf, input, |st.found|, Stutters(st));
      var last := Envelope(input, |st.found| + |list| - n - 1, payloadOf(list[|list| - 1]), false, Stutters(st));
      Associates(st.found, RawBatch(front[n..], payloadOf, input, |st.found|, Stutters(st)), [last]);
    }
  }

  /** How many envelopes there are in all. */
  function CountOf<T>(st: State, list: seq<T>): nat
    requires !st.Dead?
  {
    |st.found| + if list == [] then 0 else |list| - Lost(st)
  }

  lemma AfterBatchAt<T>(st: State, list: seq<T>, payloadOf: T -> seq<seq<Byte>>, input: nat)
    requires !st.Dead?
    ensures var found := AfterBatch(st, list, payloadOf, input).found;
            && |found| == CountOf(st, list)
            && (forall k :: 0 <= k < |st.found| ==> found[k] == st.found[k])
            && forall k :: |st.found| <= k < |found| ==>
                 found[k] == Envelope(input, k, payloadOf(list[k - |st.found| + Lost(st)]), false, Stutters(st))
  {
    if list != [] {
      RawBatchAt(list[Lost(st)..], payloadOf, input, |st.found|, Stutters(st));
    }
  }

  lemma {:induction false} BatchScanned<T>(st: State, input: nat, list: seq<T>, script: T -> seq<Instruction>,
                                           payloadOf: T -> seq<seq<Byte>>)
    requires !st.Dead? && forall x :: x in list ==> script(x) == Enclosed(payloadOf(x))
    ensures Scan(st, input, Flat(list, script)) == AfterBatch(st, list, payloadOf, input)
  {
    if list != [] {
      var front, x := list[..|list| - 1], list[|list| - 1];
      BatchScanned(st, input, front, script, payloadOf);
      ScanParts(st, input, Flat(front, script), script(x));
      EnclosedScanned(AfterBatch(st, front, payloadOf, input), input, payloadOf(x));
      AfterOneMore(st, list, payloadOf, input);
    }
  }

  lemma {:induction false} DeadStays(input: nat, script: seq<Instruction>)
    ensures Scan(Dead, input, script) == Dead
  {
    if script != [] {
      DeadStays(input, script[1..]);
    }
  }

  /** What is read of a batch behind any script: nothing but an error when the script is broken; else what the script
      itself holds, and then the batch. Behind an unfinished payload the first inscription is lost; behind an opening
      that leads nowhere all of them count as stuttering. */
  lemma BatchScriptRead(inscriptions: seq<Inscription>, builder: seq<Instruction>, input: nat)
    ensures var r := FromTapscript(builder + BatchScript(inscriptions), input, [], false);
            var st := Scan(START, input, builder);
            if st.Dead? then r.Err? else r == Findings(AfterBatch(st, inscriptions, Payload, input))
  {
    ReaderScans(START, input, builder + BatchScript(inscriptions));
    ScanParts(START, input, builder, BatchScript(inscriptions));
    var st := Scan(START, input, builder);
    if st.Dead? {
      DeadStays(input, BatchScript(inscriptions));
    } else {
      forall i | i in inscriptions ensures RevealScript(i) == Enclosed(Payload(i)) {
      }
      BatchScanned(st, input, inscriptions, RevealScript, Payload);
    }
  }

  /** A script without empty pushes leaves the reader as it starts: nothing is lost and nothing stutters. */
  lemma {:induction false} NothingOpened(builder: seq<Instruction>, input: nat)
    requires forall k :: 0 <= k < |builder| ==> builder[k] != PushBytes([]) && builder[k] != Broken
    ensures Scan(START, input, builder) == START
    decreases |builder|
  {
    if builder != [] {
      NothingOpened(builder[1..], input);
    }
  }

  /** Behind an opened envelope that is never closed, the first of two inscriptions is lost. */
  lemma FirstIsLost(first: Inscription, second: Inscription, input: nat)
    ensures FromTapscript(HEADER + BatchScript([first, second]), input, [], false)
              == Ok([Envelope(input, 0, Payload(second), false, false)])
  {
    BatchScriptRead([first, second], HEADER, input);
    HeaderScanned(START, input);
    var st := Scan(START, input, HEADER);
    assert st.Within? && st.found == [] && Stutters(st) == false && Lost(st) == 1;
    assert [first, second][1..] == [second] && [second][..0] == [];
    var only := Envelope(input, 0, Payload(second), false, false);
    assert RawBatch([second], Payload, input, 0, false) == [only];
    assert AfterBatch(st, [first, second], Payload, input) == Outside([] + [only], false);
  }

  // ---------- printing, then parsing ----------

  lemma EnvelopeReads(e: RawEnvelope, i: Inscription)
    requires e.payload == Payload(i)
    ensures Parse(e) == Envelope(e.input, e.offset, ReadBack(i), e.pushnum, e.stutter)
  {
    PayloadReads(i);
  }

  /** What the k-th envelope of a printed script parses to. */
  ghost predicate ParsesTo(st: State, inscriptions: seq<Inscription>, input: nat, k: nat, p: ParsedEnvelope)
    requires !st.Dead?
  {
    if k < |st.found| then p == Parse(st.found[k])
    else
      var j := k - |st.found| + Lost(st);
      j < |inscriptions| && p == Envelope(input, k, ReadBack(inscriptions[j]), false, Stutters(st))
  }

  lemma ParsedSo(st: State, inscriptions: seq<Inscription>, input: nat, raw: seq<RawEnvelope>, k: nat)
    requires !st.Dead? && raw == AfterBatch(st, inscriptions, Payload, input).found && k < |raw|
    ensures ParsesTo(st, inscriptions, input, k, Parse(raw[k]))
  {
    AfterBatchAt(st, inscriptions, Payload, input);
    if k >= |st.found| {
      EnvelopeReads(raw[k], inscriptions[k - |st.found| + Lost(st)]);
    }
  }

  /** Every inscription of a batch printed behind a script comes back as `ReadBack` says, in order, behind the
      envelopes of the script itself and numbered on from them, with the one exception named by `Lost`; parsing fails
      exactly when the script in front is broken. */
  method PrintThenParse(inscriptions: seq<Inscription>, builder: seq<Instruction>, input: nat)
    returns (r: Result<seq<ParsedEnvelope>>)
    ensures var st := Scan(START, input, builder);
            && (r.Err? <==> st.Dead?)
            && (r.Ok? ==> |r.value| == CountOf(st, inscriptions)
                          && forall k :: 0 <= k < |r.value| ==> ParsesTo(st, inscriptions, input, k, r.value[k]))
  {
    var script := AppendBatchRevealScriptToBuilder(inscriptions, builder);
    BatchScriptRead(inscriptions, builder, input);
    var envelopes := ParseTapscript(script, input);
    if envelopes.Err? {
      return Err;
    }
    ghost var st := Scan(START, input, builder);
    AfterBatchAt(st, inscriptions, Payload, input);
    var parsed := [];
    for k := 0 to |envelopes.value|
      invariant |parsed| == k
      invariant forall j :: 0 <= j < k ==> ParsesTo(st, inscriptions, input, j, parsed[j])
    {
      ParsedSo(st, inscriptions, input, envelopes.value, k);
      var p := ParseEnvelope(envelopes.value[k]);
      parsed := parsed + [p];
    }
    return Ok(parsed);
  }

}
