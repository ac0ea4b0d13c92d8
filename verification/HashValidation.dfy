/** Validation: comparing this node's hashes with those another node tells, and searching for the first block on which
    they differ. Beside the hashes of events there are hashes of traces, from a first height on. */
module HashValidation {
  import opened Wrappers
  import opened HashChain

  // ---------- the chain of trace hashes ----------

  /** A block without traces has an empty hash, and the next block with traces starts afresh. */
  function TraceInput(sha: Digest, traces: seq<string>, k: nat): string
    requires k < |traces|
    decreases k, 0
  {
    (if k == 0 then "" else CumulativeTraces(sha, traces, k - 1)) + traces[k]
  }

  function CumulativeTraces(sha: Digest, traces: seq<string>, k: nat): string
    requires k < |traces|
    decreases k, 1
  {
    if traces[k] == "" then "" else sha(TraceInput(sha, traces, k))
  }

  /** Blocks have traces from the p-th on. */
  predicate TracedFrom(traces: seq<string>, p: int) {
    forall k :: 0 <= k < |traces| ==> (traces[k] != "" <==> p <= k)
  }

  predicate NoTraceCollisions(sha: Digest, s: seq<string>, t: seq<string>, n: nat)
    requires n <= |s| && n <= |t|
  {
    forall j :: 0 <= j < n && sha(TraceInput(sha, s, j)) == sha(TraceInput(sha, t, j)) ==>
      TraceInput(sha, s, j) == TraceInput(sha, t, j)
  }

  /** Equal cumulative trace hashes mean equal traces of that block and of every block below, and conversely. */
  lemma {:induction false} TracesAgree(sha: Digest, s: seq<string>, t: seq<string>, p: int, k: nat)
    requires IsDigest(sha) && k < |s| && k < |t| && TracedFrom(s, p) && TracedFrom(t, p)
    requires NoTraceCollisions(sha, s, t, k + 1)
    ensures CumulativeTraces(sha, s, k) == CumulativeTraces(sha, t, k) <==> s[..k + 1] == t[..k + 1]
  {
    if k == 0 {
      assert "" + s[0] == s[0] && "" + t[0] == t[0];
      assert s[..1] == [s[0]] && t[..1] == [t[0]];
      assert s[..1][0] == s[0] && t[..1][0] == t[0];
    } else {
      SplitLast(s, t, k);
      TracesAgree(sha, s, t, p, k - 1);
      var x, y := CumulativeTraces(sha, s, k - 1), CumulativeTraces(sha, t, k - 1);
      assert |x| == |y|;
      assert (x + s[k])[..|x|] == x && (x + s[k])[|x|..] == s[k] && (y + t[k])[..|y|] == y && (y + t[k])[|y|..] == t[k];
      if k < p {
        NoTracesYet(sha, s, p, k);
        NoTracesYet(sha, t, p, k);
      }
    }
  }

  lemma SplitLast(s: seq<string>, t: seq<string>, k: nat)
    requires k < |s| && k < |t|
    ensures s[..k + 1] == t[..k + 1] <==> s[..k] == t[..k] && s[k] == t[k]
  {
    assert s[..k + 1] == s[..k] + [s[k]] && t[..k + 1] == t[..k] + [t[k]];
    assert s[..k + 1][..k] == s[..k] && t[..k + 1][..k] == t[..k];
  }

  lemma NoTracesYet(sha: Digest, traces: seq<string>, p: int, k: nat)
    requires k < |traces| && TracedFrom(traces, p) && k < p
    ensures traces[k] == "" && CumulativeTraces(sha, traces, k) == ""
  {
  }

  // ---------- what the two nodes have to say about a height ----------

  datatype Row = Row(events: string, traces: string)
  datatype Info = Info(events: string, traces: Option<string>)

  /** What each node's blocks contain: the text of their events and the hash of their traces. */
  datatype Content = Content(texts: seq<string>, traces: seq<string>)

  /** This node's table, from height `first` on. */
  ghost predicate Stores(sha: Digest, ours: int -> Option<Row>, first: int, a: Content) {
    |a.texts| == |a.traces| && forall h :: first <= h < first + |a.texts| ==>
      ours(h) == Some(Row(Cumulative(sha, a.texts, h - first), CumulativeTraces(sha, a.traces, h - first)))
  }

  predicate Tells(sha: Digest, info: Option<Info>, b: Content, k: nat)
    requires k < |b.texts| == |b.traces|
  {
    info.Some? ==>
      && info.value.events == Cumulative(sha, b.texts, k)
      && (info.value.traces.Some? ==> info.value.traces.value == CumulativeTraces(sha, b.traces, k))
  }

  /** The other node's answers, if it has any. */
  ghost predicate TellsAll(sha: Digest, theirs: int -> Option<Info>, first: int, b: Content) {
    |b.texts| == |b.traces| && forall h :: first <= h < first + |b.texts| ==> Tells(sha, theirs(h), b, h - first)
  }

  predicate BlockValid(ours: Option<Row>, theirs: Option<Info>, traced: bool) {
    && theirs.Some? && ours.Some? && ours.value.events == theirs.value.events
    && (traced && theirs.value.traces.Some? ==> ours.value.traces == theirs.value.traces.value)
  }

  /** The other node says as much about the height as it has to. */
  predicate Complete(theirs: Option<Info>, traced: bool) {
    theirs.Some? && (traced ==> theirs.value.traces.Some?)
  }

  method ValidateBlock(ours: int -> Option<Row>, theirs: int -> Option<Info>, phaseOne: int, height: int)
    returns (valid: bool)
    ensures valid <==> BlockValid(ours(height), theirs(height), height >= phaseOne)
  {
    var info := theirs(height);
    if info.None? {
      return false;
    }
    var row := ours(height);
    if row.None? || row.value.events != info.value.events {
      return false;
    }
    if height >= phaseOne && info.value.traces.Some? {
      if row.value.traces != info.value.traces.value {
        return false;
      }
    }
    return true;
  }

  /** Do the first n blocks agree, in events and traces? */
  predicate Agree(a: Content, b: Content, n: nat)
    requires n <= |a.texts| && n <= |b.texts| && n <= |a.traces| && n <= |b.traces|
  {
    AllSame(a.texts, b.texts, n) && a.traces[..n] == b.traces[..n]
  }

  /** The two nodes' blocks, from height `first` on, under a digest without collisions. */
  ghost predicate Comparable(sha: Digest, first: int, phaseOne: int, a: Content, b: Content) {
    && IsDigest(sha) && |a.texts| == |a.traces| == |b.texts| == |b.traces|
    && NoCollisions(sha, a.texts, b.texts, |a.texts|) && NoTraceCollisions(sha, a.traces, b.traces, |a.traces|)
    && TracedFrom(a.traces, phaseOne - first) && TracedFrom(b.traces, phaseOne - first)
  }

  /** A block is valid exactly when the other node knows it, the events of all blocks up to it agree and, unless the
      other node tells no traces, their traces agree too. */
  lemma ValidIsAgreement(sha: Digest, first: int, phaseOne: int, a: Content, b: Content, ours: int -> Option<Row>,
                         theirs: int -> Option<Info>, k: nat)
    requires Comparable(sha, first, phaseOne, a, b) && k < |a.texts|
    requires Stores(sha, ours, first, a) && TellsAll(sha, theirs, first, b)
    ensures BlockValid(ours(first + k), theirs(first + k), first + k >= phaseOne) <==>
              && theirs(first + k).Some? && AllSame(a.texts, b.texts, k + 1)
              && (Complete(theirs(first + k), first + k >= phaseOne) ==> a.traces[..k + 1] == b.traces[..k + 1])
  {
    assert Tells(sha, theirs(first + k), b, k);
    ChainAgrees(sha, a.texts, b.texts, k);
    TracesAgree(sha, a.traces, b.traces, phaseOne - first, k);
    if first + k < phaseOne {
      NoTracesYet(sha, a.traces, phaseOne - first, k);
      NoTracesYet(sha, b.traces, phaseOne - first, k);
    }
  }

  lemma CompleteIsAgreement(sha: Digest, first: int, phaseOne: int, a: Content, b: Content, ours: int -> Option<Row>,
                            theirs: int -> Option<Info>, height: int)
    requires Comparable(sha, first, phaseOne, a, b) && first <= height < first + |a.texts|
    requires Stores(sha, ours, first, a) && TellsAll(sha, theirs, first, b)
    requires Complete(theirs(height), height >= phaseOne)
    ensures BlockValid(ours(height), theirs(height), height >= phaseOne) <==> Agree(a, b, height - first + 1)
  {
    ValidIsAgreement(sha, first, phaseOne, a, b, ours, theirs, height - first);
  }

  // ---------- the search ----------

  /** The search ends at a height that is not valid, just above one that is, or at the first height. */
  method FindFirstMismatch(first: int, last: int, phaseOne: int, ours: int -> Option<Row>, theirs: int -> Option<Info>)
    returns (low: int)
    requires first <= last + 1 && !BlockValid(ours(last), theirs(last), last >= phaseOne)
    ensures first <= low <= last + 1 && (low == last + 1 <==> first == last + 1)
    ensures low <= last ==> !BlockValid(ours(low), theirs(low), low >= phaseOne)
    ensures low > first ==> BlockValid(ours(low - 1), theirs(low - 1), low - 1 >= phaseOne)
  {
    low := first;
    var high := last;
    while low <= high
      invariant first <= low <= high + 1 <= last + 1
      invariant low > first ==> BlockValid(ours(low - 1), theirs(low - 1), low - 1 >= phaseOne)
      invariant high < last ==> !BlockValid(ours(high + 1), theirs(high + 1), high + 1 >= phaseOne)
      decreases high - low + 1
    {
      var mid := (low + high) / 2;
      var valid := ValidateBlock(ours, theirs, phaseOne, mid);
      if !valid {
        high := mid - 1;
      } else {
        low := mid + 1;
      }
    }
  }

  /** What the operator is told: to go back to a height, or to start from scratch. */
  datatype Advice = AllValid | Reorg(to: int) | Reset(mismatch: int)

  function MismatchOf(advice: Advice): int
    requires !advice.AllValid?
  {
    if advice.Reorg? then advice.to + 1 else advice.mismatch
  }

  /** What the search establishes of its advice. */
  ghost predicate Advised(first: int, last: int, phaseOne: int, ours: int -> Option<Row>, theirs: int -> Option<Info>,
                          advice: Advice) {
    if advice.AllValid? then last < first || BlockValid(ours(last), theirs(last), last >= phaseOne)
    else
      var low := MismatchOf(advice);
      && first <= low <= last && !BlockValid(ours(low), theirs(low), low >= phaseOne)
      && (low > first ==> BlockValid(ours(low - 1), theirs(low - 1), low - 1 >= phaseOne))
      && !BlockValid(ours(last), theirs(last), last >= phaseOne) && (advice.Reorg? <==> last - low - 1 <= 10)
  }

  method Validate(first: int, last: int, phaseOne: int, ours: int -> Option<Row>, theirs: int -> Option<Info>)
    returns (advice: Advice)
    requires first <= last + 1
    ensures Advised(first, last, phaseOne, ours, theirs, advice)
  {
    var valid := ValidateBlock(ours, theirs, phaseOne, last);
    if valid {
      return AllValid;
    }
    var low := FindFirstMismatch(first, last, phaseOne, ours, theirs);
    if low > last {
      return AllValid;
    }
    return if last - low - 1 <= 10 then Reorg(low - 1) else Reset(low);
  }

  /** Where the other node's answers are complete, validation finds nothing exactly when all blocks agree; otherwise
      the height to go back to is the last one up to which they agree. */
  lemma AdviceIsRight(sha: Digest, first: int, phaseOne: int, a: Content, b: Content, ours: int -> Option<Row>,
                      theirs: int -> Option<Info>, advice: Advice)
    requires Comparable(sha, first, phaseOne, a, b) && a.texts != []
    requires Stores(sha, ours, first, a) && TellsAll(sha, theirs, first, b)
    requires Advised(first, first + |a.texts| - 1, phaseOne, ours, theirs, advice)
    ensures var last := first + |a.texts| - 1;
            Complete(theirs(last), last >= phaseOne) ==> (advice.AllValid? <==> Agree(a, b, |a.texts|))
    ensures !advice.AllValid? ==>
              var low := MismatchOf(advice);
              && (low == first || Complete(theirs(low - 1), low - 1 >= phaseOne) ==> Agree(a, b, low - first))
              && (Complete(theirs(low), low >= phaseOne) ==> !Agree(a, b, low - first + 1))
  {
    var last := first + |a.texts| - 1;
    if Complete(theirs(last), last >= phaseOne) {
      CompleteIsAgreement(sha, first, phaseOne, a, b, ours, theirs, last);
    }
    if !advice.AllValid? {
      var low := MismatchOf(advice);
      if Complete(theirs(low), low >= phaseOne) {
        CompleteIsAgreement(sha, first, phaseOne, a, b, ours, theirs, low);
      }
      if low > first && Complete(theirs(low - 1), low - 1 >= phaseOne) {
        CompleteIsAgreement(sha, first, phaseOne, a, b, ours, theirs, low - 1);
      }
    }
  }

  // ---------- an instance ----------

  const OURS := Content(["event"], ["trace"])
  const THEIRS := Content(["event"], ["another trace"])

  function OurRow(sha: Digest): Row {
    Row(Cumulative(sha, OURS.texts, 0), CumulativeTraces(sha, OURS.traces, 0))
  }

  /** The other node tells its event hash and no trace hash. */
  function TheirInfo(sha: Digest): Info {
    Info(Cumulative(sha, THEIRS.texts, 0), None)
  }

  /** A node that tells no traces is found to agree, although its trace is another one. */
  lemma UntoldTraceIsMissed(sha: Digest, first: int)
    ensures Stores(sha, h => Some(OurRow(sha)), first, OURS) && TellsAll(sha, h => Some(TheirInfo(sha)), first, THEIRS)
    ensures BlockValid(Some(OurRow(sha)), Some(TheirInfo(sha)), true) && !Agree(OURS, THEIRS, 1)
    ensures Advised(first, first, first, h => Some(OurRow(sha)), h => Some(TheirInfo(sha)), AllValid)
  {
    assert OURS.traces[..1][0] == "trace" && THEIRS.traces[..1][0] == "another trace";
    assert |"trace"| != |"another trace"|;
  }

}
