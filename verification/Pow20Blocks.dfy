/** Indexing one POW-20 block, stopping between any two commits, and repairing what is left. */
module Pow20Blocks {
  import opened Wrappers
  import opened Rows
  import opened Pow20Ledger
  import opened Pow20Rollback

  // ---------- one block ----------

  /** The tables and the event text accumulated for the block in progress. */
  datatype Cursor = Cursor(tables: Tables, text: string)

  datatype Progress = Progress(cursor: Cursor, aborted: bool)

  /** How one transfer changes the block in progress, and the hash function of the event hashes.
      The theorems below hold for every lawful choice; Pow20Rules gives the ledger's own. */
  datatype Rules = Rules(advance: (Cursor, int, Transfer) -> Progress, sha: string -> string)

  /** What a transfer may do: append rows at its own height, and nothing a rollback would not undo. */
  ghost predicate Lawful(rules: Rules) {
    forall c: Cursor, height: int, tr: Transfer ::
      LawfulAt(c.tables, height, rules.advance(c, height, tr).cursor.tables)
  }

  ghost predicate LawfulAt(t: Tables, height: int, u: Tables) {
    && u.blocks == t.blocks && u.hashes == t.hashes
    && (forall h :: h < height ==> Rollback(u, h) == Rollback(t, h))
    && (Bounded(t, height) ==> Bounded(u, height))
  }

  function Carry(env: Env, c: Cursor, height: int, d: Decision): Progress
    requires d.Commit? ==> CanApply(c.tables, d.step)
  {
    match d
    case Skip => Progress(c, false)
    case Abort => Progress(c, true)
    case Commit(s) =>
      Progress(Cursor(Apply(c.tables, height, s), c.text + StepText(env, c.tables, s)), false)
  }

  function Advance(env: Env, c: Cursor, height: int, tr: Transfer): Progress {
    DecideIsApplicable(env, c.tables, height, tr);
    Carry(env, c, height, Decide(env, c.tables, height, tr))
  }

  function Pow20Rules(env: Env): Rules {
    Rules((c, height, tr) => Advance(env, c, height, tr), env.sha)
  }

  lemma StepLawful(t: Tables, height: int, s: Step)
    requires CanApply(t, s)
    ensures LawfulAt(t, height, Apply(t, height, s))
  {
    forall h | h < height ensures Rollback(Apply(t, height, s), h) == Rollback(t, h) {
      RollbackAbsorbsStep(t, height, s, h);
    }
  }

  lemma Pow20IsLawful(env: Env)
    ensures Lawful(Pow20Rules(env))
  {
    forall c: Cursor, height, tr
      ensures LawfulAt(c.tables, height, Pow20Rules(env).advance(c, height, tr).cursor.tables)
    {
      var d := Decide(env, c.tables, height, tr);
      if d.Commit? {
        DecideIsApplicable(env, c.tables, height, tr);
        StepLawful(c.tables, height, d.step);
      }
    }
  }

  function RunTransfers(rules: Rules, t: Tables, height: int, transfers: seq<Transfer>): Progress {
    if transfers == [] then Progress(Cursor(t, ""), false)
    else
      var p := RunTransfers(rules, t, height, transfers[..|transfers| - 1]);
      if p.aborted then p else rules.advance(p.cursor, height, transfers[|transfers| - 1])
  }

  function HashAt(hashes: seq<Row<HashRec>>, height: int): Option<HashRec> {
    if hashes == [] then None
    else if hashes[|hashes| - 1].height == height then Some(hashes[|hashes| - 1].value)
    else HashAt(hashes[..|hashes| - 1], height)
  }

  function TrimSeparator(text: string): string {
    if text != "" && text[|text| - 1..] == EVENT_SEPARATOR then text[..|text| - 1] else text
  }

  /** update_event_hashes: one row for the block, chained to the previous height's hash. */
  function WithHashes(rules: Rules, c: Cursor, height: int): Tables {
    var blockEventHash := rules.sha(TrimSeparator(c.text));
    var cumulative :=
      match HashAt(c.tables.hashes, height - 1)
      case None => blockEventHash
      case Some(prev) => rules.sha(prev.cumulativeEventHash + blockEventHash);
    c.tables.(hashes := c.tables.hashes + [Row(height, HashRec(blockEventHash, cumulative))])
  }

  function WithBlock(t: Tables, height: int, hash: string): Tables {
    t.(blocks := t.blocks + [Row(height, hash)])
  }

  /** The state when index_block stops after `stop` units of work: one unit for each transfer, one
      for the hash row, one for the block row. An aborted block stops where it aborted. */
  function StateAt(rules: Rules, t: Tables, height: int, block: Block, stop: nat): (u: Tables)
  {
    if stop <= |block.transfers| then
      RunTransfers(rules, t, height, block.transfers[..stop]).cursor.tables
    else
      var p := RunTransfers(rules, t, height, block.transfers);
      if p.aborted then p.cursor.tables
      else if stop == |block.transfers| + 1 then WithHashes(rules, p.cursor, height)
      else WithBlock(WithHashes(rules, p.cursor, height), height, block.hash)
  }

  /** The state after the whole block, or None when the block aborts. */
  function IndexBlock(rules: Rules, t: Tables, height: int, block: Block): (u: Option<Tables>)
  {
    var p := RunTransfers(rules, t, height, block.transfers);
    if p.aborted then None else Some(WithBlock(WithHashes(rules, p.cursor, height), height, block.hash))
  }

  predicate Completes(rules: Rules, t: Tables, height: int, block: Block, stop: nat)
  {
    stop > |block.transfers| + 1 && IndexBlock(rules, t, height, block).Some?
  }

  lemma {:induction false} TransfersLawful(rules: Rules, t: Tables, height: int, transfers: seq<Transfer>)
    requires Lawful(rules)
    ensures LawfulAt(t, height, RunTransfers(rules, t, height, transfers).cursor.tables)
  {
    if transfers != [] {
      var front, tr := transfers[..|transfers| - 1], transfers[|transfers| - 1];
      TransfersLawful(rules, t, height, front);
      var p := RunTransfers(rules, t, height, front);
      assert LawfulAt(p.cursor.tables, height, rules.advance(p.cursor, height, tr).cursor.tables);
    }
  }

  lemma HashRowAbsorbed(rules: Rules, c: Cursor, height: int, h: int)
    requires h < height
    ensures Rollback(WithHashes(rules, c, height), h) == Rollback(c.tables, h)
  {
    var hashes := WithHashes(rules, c, height).hashes;
    UpToPush(c.tables.hashes, hashes[|hashes| - 1], h);
  }

  lemma BlockRowAbsorbed(t: Tables, height: int, hash: string, h: int)
    requires h < height
    ensures Rollback(WithBlock(t, height, hash), h) == Rollback(t, h)
  {
    UpToPush(t.blocks, Row(height, hash), h);
  }

  /** Wherever a block's indexing stops, rolling back below the block forgets it. */
  lemma StateAbsorbed(rules: Rules, t: Tables, height: int, block: Block, stop: nat, h: int)
    requires Lawful(rules)
    requires h < height
    ensures Rollback(StateAt(rules, t, height, block, stop), h) == Rollback(t, h)
    ensures !Completes(rules, t, height, block, stop) ==> StateAt(rules, t, height, block, stop).blocks == t.blocks
  {
    if stop <= |block.transfers| {
      TransfersLawful(rules, t, height, block.transfers[..stop]);
    } else {
      TransfersLawful(rules, t, height, block.transfers);
      var p := RunTransfers(rules, t, height, block.transfers);
      if !p.aborted {
        HashRowAbsorbed(rules, p.cursor, height, h);
        BlockRowAbsorbed(WithHashes(rules, p.cursor, height), height, block.hash, h);
      }
    }
  }

  // ---------- repair after a crash ----------

  function CurrentBlock(t: Tables, first: int): int {
    match MaxHeight(t.blocks)
    case None => first
    case Some(m) => m + 1
  }

  /** `coalesce(max(block_height), -1) >= height`. */
  predicate ReachesHeight<T>(rows: seq<Row<T>>, height: int) {
    match MaxHeight(rows)
    case None => -1 >= height
    case Some(m) => m >= height
  }

  predicate HasResidue(t: Tables, first: int) {
    var current := CurrentBlock(t, first);
    || ReachesHeight(t.events, current)
    || ReachesHeight(t.balances, current)
    || (if t.tickers == map[] then -1 >= current
        else exists k :: k in t.tickers && t.tickers[k].height >= current)
    || ReachesHeight(t.hashes, current)
  }

  /** check_if_there_is_residue_from_last_run. */
  function ResidueCheck(t: Tables, first: int): Tables {
    if HasResidue(t, first) then Rollback(t, CurrentBlock(t, first) - 1) else t
  }

  /** The residue check is a rollback in every case: with no residue there is nothing to delete. */
  lemma ResidueCheckIsRollback(t: Tables, first: int)
    ensures ResidueCheck(t, first) == Rollback(t, CurrentBlock(t, first) - 1)
  {
    if !HasResidue(t, first) {
      var h := CurrentBlock(t, first) - 1;
      MaxHeightBounds(t.events, h);
      MaxHeightBounds(t.balances, h);
      MaxHeightBounds(t.hashes, h);
      MaxHeightBounds(t.blocks, h);
      RollbackOfBounded(t, h);
    }
  }

  /** Tables as they are between blocks: everything is below the next height, and the block rows
      end just below it. */
  predicate Settled(t: Tables, first: int, next: int) {
    Bounded(t, next - 1) && CurrentBlock(t, first) == next
  }

  lemma SettledHasNoResidue(t: Tables, first: int, next: int)
    requires Settled(t, first, next)
    ensures ResidueCheck(t, first) == t
  {
    ResidueCheckIsRollback(t, first);
    RollbackOfBounded(t, next - 1);
  }

  lemma SameBelowIsRepaired(u: Tables, t: Tables, first: int, next: int)
    requires Settled(t, first, next)
    requires u.blocks == t.blocks && Rollback(u, next - 1) == Rollback(t, next - 1)
    ensures ResidueCheck(u, first) == t
  {
    ResidueCheckIsRollback(u, first);
    RollbackOfBounded(t, next - 1);
  }

  /** Stopping anywhere inside a block and running the residue check gives back exactly the state
      after the last fully indexed block. */
  lemma CrashIsRepaired(rules: Rules, t: Tables, first: int, height: int, block: Block, stop: nat)
    requires Lawful(rules)
    requires Settled(t, first, height) && !Completes(rules, t, height, block, stop)
    ensures ResidueCheck(StateAt(rules, t, height, block, stop), first) == t
  {
    StateAbsorbed(rules, t, height, block, stop, height - 1);
    SameBelowIsRepaired(StateAt(rules, t, height, block, stop), t, first, height);
  }

  /** A fully indexed block leaves settled tables again. */
  lemma IndexedIsSettled(rules: Rules, t: Tables, first: int, height: int, block: Block)
    requires Lawful(rules)
    requires Settled(t, first, height) && IndexBlock(rules, t, height, block).Some?
    ensures var u := IndexBlock(rules, t, height, block).value;
            Settled(u, first, height + 1) && u.blocks == t.blocks + [Row(height, block.hash)]
  {
    TransfersLawful(rules, t, height, block.transfers);
    var u := IndexBlock(rules, t, height, block).value;
    assert u.blocks[..|t.blocks|] == t.blocks;
  }

  lemma IndexBlockAbsorbed(rules: Rules, t: Tables, height: int, block: Block, h: int)
    requires Lawful(rules)
    requires h < height && IndexBlock(rules, t, height, block).Some?
    ensures Rollback(IndexBlock(rules, t, height, block).value, h) == Rollback(t, h)
  {
    StateAbsorbed(rules, t, height, block, |block.transfers| + 2, h);
  }

}
