# OPI verification

A Dafny model of the Open Protocol Indexer: the POW-20 indexer, the BRC-20 indexer with its write-behind
database, and the parts of ord's index and inscription codecs they rest on. Each component keeps the form of its
source: objects whose methods change fields are classes, loops are loops with invariants, and each such method is
proved against a specification function about which the theorems are then proved.

Run `dafny verify dfyconfig.toml` to check the whole project.

## What is modelled

**POW-20** (`Pow20*`, `ChainFollower`). The ledger is five tables with rows tagged by block height. `Pow20Ledger`
decides each inscription transfer and says what its transaction commits. `Pow20Rollback` proves that `reorg_fix`
undoes every transaction above a height. `Pow20Blocks` stops a block between any two commits and proves that the
residue check restores the state before it. `ChainFollower` runs the main loop over a chain that may reorganize, for
any machine that obeys five laws, and `Pow20Run` shows that the POW-20 indexer obeys them: whenever a block starts to
be indexed, the tables equal an uninterrupted replay of the canonical blocks below it, crashes and reorganizations
included. `Pow20Indexer` is the running indexer, with its cache of mutable balance objects, its single-use event
cache and its tickers in memory. `Pow20Extras`, `Pow20ExtraTables` and `Pow20ExtrasRun` are the derived tables, which
are updated statement by statement outside any transaction; `Pow20FullRun` is the whole process, main and derived
tables, with stops anywhere in either: when a check of the derived tables has finished, they equal a computation from
scratch, exactly unless they have blocks that the main tables have yet to index again; `Pow20Ahead` is how that comes
about. What holds of every replay is proved by one induction principle (`Pow20Induction`): supply is conserved
(`Pow20Supply`), locks are backed (`Pow20Locked`), amounts are whole units (`Pow20Units`), wallets are those of the
scripts (`Pow20Wallets`); `Pow20Safety` carries this over to every run. `Pow20Aborts` says exactly when a block raises.

**BRC-20** (`Brc20*`, `HashChain`). `Brc20Ledger` is the ledger on plain values. `Brc20Invariants` and `Brc20Run`
prove, over every run, that supply is conserved, that the locked part of every balance is backed by unspent transfer
inscriptions, that nothing is spent twice, that no 128-bit number overflows, and that a light node which replays the
published events reaches the full node's ledger. `Brc20Units` proves that every amount stays a whole number of its
ticker's units, and `Brc20Predeploy` that a commitment to a six-byte ticker deploys no other ticker. `Brc20Database`
and `Brc20Store` are the caches and pending rows, which answer as if everything were in the tables; `Brc20Node`,
`Brc20Indexer`, `Brc20FullNode` and `Brc20LightNode` are the code that runs on them, proved equal to the ledger.
`Brc20Rollback` says exactly what rolling the tables back restores, and `Brc20BurnRun` is a run that it does not undo.
`Brc20Deaths` and `Brc20Restart` are the two ways a process dies in a block: before the flush, which loses nothing, and
between the flush and the block row, after which the next process rolls the block back. `Brc20Chain` runs a full and a
light node over a chain of blocks while either dies in any block in either way. `Brc20Refund` is the swap refund, which
ends with an error when part of the swap module's holding is locked, and `Brc20RefundBlock` the block it belongs to.
`HashChain` is the chain of event hashes, and `HashValidation` the binary search for the first block on which two nodes
differ in events or traces.

**ord** (`Prefetch`, `Fetcher`, `UtxoEntry`, `Varint`, `Inscriptions`, `Envelopes`, `EnvelopeRoundTrip`,
`BatchRoundTrip`, `IdCodecs`, `OrdDecimal`). The queue of prefetched outputs carries no names; `Prefetch` proves that
the loop that fills it and the loop that drains it agree, and that cache and database together are one map of unspent
outputs. `Fetcher` proves that answers come back in the order of the requests. The remaining modules prove that what is
written reads back: unspent-output entries, reveal scripts behind any script, inscription ids, pointers and decimals.

`Wrappers`, `Arithmetic`, `Numerals`, `Text`, `Sequences`, `MapSums`, `Bytes`, `Rows` and `Balances` are shared ground;
`Amounts` and `Units` hold the fixed-point amounts of both token indexers.

## Assumptions

Each appears as a parameter or a precondition.

- SHA-256, Unicode case mapping, the text of an event and the JSON content of an inscription are function parameters.
  The hash chain assumes 64-character digests and no collision among the strings two nodes hash for the same block.
- An inscription's content is a fixed function of its id, a wallet is a fixed function of its script, and an inscription
  is created once.
- `brc20_prog` is an oracle; a withdrawal it grants is covered by what the module account holds.
- Equal block hashes mean equal ancestors, and the chain does not change during one pass of the main loop.
- The light node is given the events a full node published.
- The Bitcoin node answers a batch with one truthful response for each request, as its ids say; the fetcher does not
  check that (`Fetcher.OneToOneMatters` says what happens otherwise).
- A Bitcoin block spends no output twice, spends nothing before it is created, and does not spend its own coinbase.
- Pushing a slice of bytes on a script reads back as one push instruction, and OP_FALSE as an empty push.

## Findings

- `check_for_reorg` says it supports ten blocks, but reads ten stored hashes including the one already known to
  differ: it rolls back at most nine blocks (`ChainFollower.CheckForReorgFindsFork` states exactly when;
  `ChainFollower.TenBlocksLeave` is an instance).
- A POW-20 mint of a ticker deployed earlier in the same block ends the block with an exception, because the ticker
  in memory has no starting height yet (`Pow20Aborts.SuchABlock` is an instance, `Pow20Aborts.DeployThenMint` the
  family; `Pow20Aborts.AbortsExactly` says exactly when a transfer raises).
- Where indexing starts at height 0, a fork at the very first block is taken for no fork, because height 0 stands for
  nothing found (`Pow20ExtrasRun.ForkAtZeroIsMissed`; `Pow20ExtrasRun.StartsAtFork` says when the fork is found). The
  main tables never leave their first block, so no run gets there.
- After the chain went away and came back, the derived tables of POW-20 can be ahead of the main tables for a while: the
  early return of their check leaves them alone exactly when the main block rows are a proper prefix of theirs, and that
  is exactly when they differ from a computation from scratch (`Pow20ExtrasRun.CheckExtraTables`,
  `Pow20ExtrasRun.CheckedIsScratch`, and over whole runs `Pow20FullRun.FullRun`). `Pow20Ahead.LeftBehind` is the family
  of runs that get there, `Pow20Ahead.SuchARun` and `Pow20Ahead.SuchTables` an instance.
- Rolling the BRC-20 tables back does not restore burned supply: it is the inverse of indexing exactly when nothing of
  an older ticker was burned above the height, and otherwise overstates the supply by what was burned
  (`Brc20Rollback.RollbackIsInverse`, `Brc20Rollback.SupplyOverstated`; `Brc20BurnRun.BurnIsNotUndone` is a run from
  empty tables).
- So a process that dies between the flush of a block and its block row starts again with what the block burns burned
  already, before it indexes the block once more: its ledger goes astray exactly when the block burns something of an
  older ticker (`Brc20Restart.DieAfterFlush`; `Brc20Chain.FollowChain` says it of whole chains). At height 0 the residue
  check finds nothing, because a newest height of 0 never counts as residue, and the block stays.
- The swap refund ends with an error when part of what the module account holds is locked, at every further attempt too
  (`Brc20Refund.GenerateAndProcessRefunds` says exactly when). At a block without transfers the node returns before the
  flush: the block row is written all the same, and a process that dies then has lost the refund for good
  (`Brc20RefundBlock.DieAfterRefund`), which matters exactly when the module held something
  (`Brc20RefundBlock.RefundIsLost`).
- Two ends of a deposit leave the inscription's cached validity `Valid`: burned because the module does not take it, and
  refused by the module after the balances moved. Nothing is spent twice, because the event cache refuses the second
  event; if only that cache were cleared, the inscription could be spent again (`Brc20Database.ClearedTogether`).
- The validation of hashes compares traces only where the other node tells them, so it can miss a difference there
  (`HashValidation.ValidIsAgreement` says exactly what a valid block means; `HashValidation.UntoldTraceIsMissed` is an
  instance).
- A batch of inscriptions printed behind a script that ends inside an unfinished envelope loses its first inscription
  (`BatchRoundTrip.BatchScriptRead` says what is read behind any script; `BatchRoundTrip.FirstIsLost` is an instance).
- The fetcher sorts the responses to a batch by id and does not check that there is one for each request: truthful
  responses are accepted as the requested transactions exactly when there is (`Fetcher.OneToOneMatters`).
- An amount that denotes an exact number of units is refused when its scale exceeds the divisibility, or when the power
  of ten between them exceeds 128 bits (`OrdDecimal.ExactButRefused`; `OrdDecimal.ToIntegerExact` is exact).
- A present but empty metadata or properties field prints nothing and reads back as absent
  (`EnvelopeRoundTrip.ExactRoundTrip`).

## Model

| member | source | states |
|---|---|---|
| Amounts.IsPositiveDecimal | modules/brc20_index/src/indexer/utils.rs:5-36 | accepts exactly digits, optionally a dot and digits, with at most 18 fraction digits |
| Amounts.GetAmountValue | modules/brc20_index/src/indexer/utils.rs:41-82 | accepts exactly the well-formed texts with at most `dec` fraction digits whose value is in bounds, and returns that value in units of 10^-18; an absent text gives the default or an error |
| Amounts.ScaledIsExact | modules/brc20_index/src/indexer/utils.rs:41-82 | the returned number is the text's exact rational value times 10^18 |
| Amounts.ScaledIsMultiple | modules/brc20_index/src/indexer/utils.rs:41-82 | a text with at most `dec` fraction digits gives a multiple of 10^(18-dec) |
| Amounts.DigitsWithoutDot | modules/brc20_index/src/indexer/utils.rs:57-70 | the digits of both parts, or nothing when the fraction is longer than the ticker's decimals |
| Amounts.PaddedIsScaled | modules/brc20_index/src/indexer/utils.rs:57-74 | the digits padded to eighteen fraction digits denote the scaled value |
| Amounts.IsPositiveNumberWithDot | modules/pow20_index/pow20_index.py:128-144 | accepts exactly the same grammar, with no limit on length |
| Amounts.ExtendReads | modules/pow20_index/pow20_index.py:146-158 | rejects exactly the texts with too many fraction digits; otherwise the value is exact |
| Amounts.FixShape | modules/pow20_index/pow20_index.py:168-179 | an amount prints with its dot eighteen digits from the right, cut to the ticker's decimals, and no dot when none is left |
| Amounts.FixThenExtend | modules/pow20_index/pow20_index.py:146-179 | printing any whole amount of a ticker and reading it back gives the amount |
| Balances.NewestIsLastInserted | modules/pow20_index/pow20_index.py:262-281 | ordering by height then id, and ordering by id alone, find the same balance row |
| Balances.NewestPush | modules/pow20_index/pow20_index.py:262-281 | a new row becomes its account's balance and leaves every other account alone |
| Pow20Ledger.DecideIsApplicable | modules/pow20_index/pow20_index.py:491-592 | every accepted transfer finds the ticker and the inscribe event its transaction needs |
| Pow20Rollback.RollbackAbsorbsStep | modules/pow20_index/pow20_index.py:294-443 | a rollback below any of the five transactions forgets it, remaining supply included |
| Pow20Rollback.RollbackTwice | modules/pow20_index/pow20_index.py:625-652 | rolling back in two stages is rolling back at once |
| Pow20Rollback.RollbackIsBounded | modules/pow20_index/pow20_index.py:625-652 | after a rollback no table has a row above the height |
| Pow20Rollback.RollbackIsInverse | modules/pow20_index/pow20_index.py:294-443 | any sequence of deploys, mints and transfers above a height followed by `reorg_fix` restores every table |
| Pow20Blocks.Pow20IsLawful | modules/pow20_index/pow20_index.py:491-592 | whatever a transfer contains, it changes nothing that a rollback below its block would not undo |
| Pow20Blocks.StateAbsorbed | modules/pow20_index/pow20_index.py:459-597 | wherever a block's indexing stops, rolling back below it forgets it, and an unfinished block has no block row |
| Pow20Blocks.ResidueCheckIsRollback | modules/pow20_index/pow20_index.py:654-681 | the residue check is a rollback to the last block row in every case: where it finds nothing, there is nothing |
| Pow20Blocks.CrashIsRepaired | modules/pow20_index/pow20_index.py:446-681 | stopping anywhere in a block and running the residue check gives back the state after the last full block |
| Pow20Blocks.IndexedIsSettled | modules/pow20_index/pow20_index.py:459-597 | a full block leaves no row above it and exactly one more block row |
| ChainFollower.CheckForReorgFindsFork | modules/pow20_index/pow20_index.py:602-623 | for every fork: no reorganization if all indexed blocks stayed, the last common block if at most nine left and the first stayed, else a critical error |
| ChainFollower.TenBlocksLeave | modules/pow20_index/pow20_index.py:602-623 | an instance: nine blocks that leave are found, ten are not |
| ChainFollower.RollbackOfReplay | modules/pow20_index/pow20_index.py:625-652 | rolling a replay back is replaying the shorter chain |
| ChainFollower.ReplayIsSettled | modules/pow20_index/pow20_index.py:459-597 | after a replay the block rows are the chain's hashes at consecutive heights, and nothing stands above them |
| ChainFollower.RunIsSafe | modules/pow20_index/pow20_index.py:1048-1090 | over every run with crashes and reorganizations, whenever a block starts to be indexed the tables equal a replay of the chain below it |
| ChainFollower.CrashIsForgotten | modules/pow20_index/pow20_index.py:654-681 | the pass after a crash does what it would have done had the block never been started |
| ChainFollower.PassesReach | modules/pow20_index/pow20_index.py:602-623 | after a fork, enough uninterrupted passes reach a replay of the new chain exactly when at most nine blocks left and the first stayed |
| Pow20Run.Pow20MachineIsLawful | modules/pow20_index/pow20_index.py:446-681 | the POW-20 indexer repairs crashes, settles after each block, and rolls back exactly |
| Pow20Run.Pow20RunsAreSafe | modules/pow20_index/pow20_index.py:1048-1090 | whole-run safety for the POW-20 indexer |
| Pow20Run.Pow20PassesReach | modules/pow20_index/pow20_index.py:1048-1090 | the POW-20 indexer gets to the canonical chain in finitely many passes, exactly when the fork allows it |
| Pow20Induction.HoldsOfReplays | modules/pow20_index/pow20_index.py:459-597 | what holds of empty tables and is kept by every accepted transfer holds of every replay |
| Pow20Supply.SupplyIsConserved | modules/pow20_index/pow20_index.py:320-412 | in every replay, what all accounts hold of a ticker and what is left to mint make up its maximum supply |
| Pow20Locked.LocksAreBacked | modules/pow20_index/pow20_index.py:349-443 | in every replay available is between 0 and overall, and overall minus available is the sum of the unspent inscribed amounts |
| Pow20Units.ReplayIsInUnits | modules/pow20_index/pow20_index.py:146-179 | in every replay all quantities of a ticker are multiples of 10^(18-dec) |
| Pow20Units.EventAmountsReadBack | modules/pow20_index/pow20_index.py:168-228 | the text of every recorded event states its amounts exactly, although it cuts them to the ticker's decimals |
| Pow20Safety.ReplayIsSound | modules/pow20_index/pow20_index.py:459-597 | supply, locks and bounds hold of every replay |
| Pow20Safety.RunsKeepTheLedger | modules/pow20_index/pow20_index.py:1048-1090 | supply, locks and bounds hold after every run with crashes and reorganizations, once the residue is repaired |
| Pow20Aborts.AbortsExactly | modules/pow20_index/pow20_index.py:491-592 | a transfer raises exactly when it mints a ticker of the same block, deploys with a starting height beyond 32 bits, or repeats an event |
| Pow20Aborts.FirstNeverRepeats | modules/pow20_index/pow20_index.py:294-373 | the first transfer of an inscription never repeats an event |
| Pow20Aborts.BlockAborts | modules/pow20_index/pow20_index.py:459-597 | a block is not indexed exactly when one of its transfers raises |
| Pow20Aborts.DeployThenMint | modules/pow20_index/pow20_index.py:548-556 | any block that deploys a ticker and then mints it is not indexed |
| Pow20Aborts.SuchABlock | modules/pow20_index/pow20_index.py:548-556 | a concrete block of two transfers that is not indexed |
| Pow20Indexer.CacheKeyInjective | modules/pow20_index/pow20_index.py:262-266 | script and ticker run together without a separator never collide, because tickers have equal length in UTF-8 |
| Pow20Indexer.Indexer.GetLastBalance | modules/pow20_index/pow20_index.py:262-281 | hands out the one object cached for the account, holding its newest balance |
| Pow20Indexer.Indexer.SaveBalance | modules/pow20_index/pow20_index.py:341-343 | the account's object becomes its newest row, and every cached object is right again |
| Pow20Indexer.Indexer.Adjust | modules/pow20_index/pow20_index.py:338-343 | mutating the shared object and inserting its row moves exactly that account |
| Pow20Indexer.Indexer.AddEvent | modules/pow20_index/pow20_index.py:309-311 | the event's row and its text are added, and cached inscribe events stay right |
| Pow20Indexer.Indexer.GetTransferInscribeEvent | modules/pow20_index/pow20_index.py:249-256 | cache or table, the answer is the recorded inscribe event |
| Pow20Indexer.Indexer.DeployInscribe | modules/pow20_index/pow20_index.py:294-318 | commits the deploy transaction, in the tables and in memory |
| Pow20Indexer.Indexer.MintInscribe | modules/pow20_index/pow20_index.py:320-347 | commits the mint transaction, in the tables and in memory |
| Pow20Indexer.Indexer.TransferInscribe | modules/pow20_index/pow20_index.py:349-373 | commits the transfer-inscribe transaction |
| Pow20Indexer.Indexer.TransferTransferNormal | modules/pow20_index/pow20_index.py:375-412 | commits the transfer transaction, also when sender and receiver share one cached object |
| Pow20Indexer.Indexer.MoveBalance | modules/pow20_index/pow20_index.py:397-409 | writes the debit and the credit of a transfer, to another account or to oneself |
| Pow20Indexer.Indexer.TransferTransferSpendToFee | modules/pow20_index/pow20_index.py:414-443 | commits the spend-to-fee transaction: the lock returns to the source |
| Pow20Indexer.Indexer.ParseAmount | modules/pow20_index/pow20_index.py:533-537 | a positive amount within bounds, or nothing when the text is not one |
| Pow20Indexer.Indexer.HandleDeploy | modules/pow20_index/pow20_index.py:512-545 | deploys exactly when the decision says so, and otherwise leaves everything alone |
| Pow20Indexer.Indexer.CheckMint | modules/pow20_index/pow20_index.py:548-573 | whether a mint is valid, clamped or ends the block, from tickers in memory as from the tables |
| Pow20Indexer.Indexer.HandleMint | modules/pow20_index/pow20_index.py:548-573 | mints exactly the decided amount exactly when the decision says so |
| Pow20Indexer.Indexer.CheckSolution | modules/pow20_index/pow20_index.py:563-571 | the checks against tickers in memory decide what the tables decide |
| Pow20Indexer.Indexer.HandleInscribe | modules/pow20_index/pow20_index.py:586-588 | inscribes exactly when the available balance covers the amount |
| Pow20Indexer.Indexer.HandleTransfer | modules/pow20_index/pow20_index.py:576-592 | inscribes, spends, returns or skips as decided |
| Pow20Indexer.Indexer.ReadTransfer | modules/pow20_index/pow20_index.py:491-511 | which transfers are looked at, and the ticker and operation they name |
| Pow20Indexer.Indexer.HandleOp | modules/pow20_index/pow20_index.py:512-592 | one operation is done as decided |
| Pow20Indexer.Indexer.ProcessTransfer | modules/pow20_index/pow20_index.py:491-592 | one turn of the loop advances tables and event text as the ledger's rules say |
| Pow20Indexer.Indexer.IndexTransfers | modules/pow20_index/pow20_index.py:491-592 | the loop over transfers is the run of the rules, up to an abort |
| Pow20Indexer.Indexer.UpdateEventHashes | modules/pow20_index/pow20_index.py:446-456 | one hash row, chained to the previous height's |
| Pow20Indexer.Indexer.IndexBlock | modules/pow20_index/pow20_index.py:459-598 | stopped after any number of commits, or not at all, the tables are what the specification of the block says |
| Pow20Indexer.Indexer.ReorgFix | modules/pow20_index/pow20_index.py:625-652 | the tables are rolled back and the caches are empty |
| Pow20Indexer.Indexer.SumMinted | modules/pow20_index/pow20_index.py:629-639 | for every ticker, the amount minted above the height |
| Pow20Indexer.Indexer.GiveBack | modules/pow20_index/pow20_index.py:640-641 | every surviving ticker gets back exactly its amount |
| Pow20Indexer.Indexer.CheckIfThereIsResidueFromLastRun | modules/pow20_index/pow20_index.py:654-681 | the tables are repaired |
| Pow20Indexer.Indexer.CheckForReorg | modules/pow20_index/pow20_index.py:602-623 | the loop over stored hashes gives the specified verdict |
| Pow20Indexer.Indexer.Iterate | modules/pow20_index/pow20_index.py:1048-1090 | one pass repairs, then waits, stops, rolls back or indexes as the machine does |
| Pow20Indexer.Indexer.MainLoop | modules/pow20_index/pow20_index.py:1048-1090 | any number of passes by any number of processes are a run of the machine of the safety theorem |
| Pow20Regular.AtMostOnce | modules/pow20_index/pow20_index.py:160-166 | no inscription is transferred twice, and a transferred one was inscribed |
| Pow20Regular.ReplayIsRegular | modules/pow20_index/pow20_index.py:459-597 | in every replay heights ascend, inscriptions are spent once, and every movement has a balance row in its block |
| Pow20Extras.CurrentIsLastInserted | modules/pow20_index/pow20_index.py:884-906 | the table built from scratch holds the last history row of every account and nothing else |
| Pow20Extras.RefillRestores | modules/pow20_index/pow20_index.py:803-819 | deleting and refilling gives the from-scratch table, wallets included, whatever stood above the height |
| Pow20Extras.AgreesBelowShared | modules/pow20_index/pow20_index.py:803-819 | a table built on an old history agrees below the fork with the new one |
| Pow20Extras.AgreesAtLower | modules/pow20_index/pow20_index.py:683-702 | a from-scratch table agrees below every lower height with the history up to it |
| Pow20Extras.UpsertsAgree | modules/pow20_index/pow20_index.py:944-960 | upserting a block's changes gives the from-scratch table of that block, wallets included |
| Pow20Extras.PartialAgreesBelow | modules/pow20_index/pow20_index.py:951-960 | however far the upserts got, the entries below the block still agree |
| Pow20Extras.NoteStepAgrees | modules/pow20_index/pow20_index.py:962-986 | one inserted or deleted note keeps the notes equal to the unspent inscribe events |
| Pow20Wallets.ReplayWalletsFixed | ord/db_reader/src/server.rs:346-353 | in every replay all rows of a script carry the one wallet computed from it |
| Pow20ExtraTables.ChangeKeyInjective | modules/pow20_index/pow20_index.py:944-949 | the block's change map never mixes two accounts |
| Pow20ExtraTables.ExtraTables.ResetUnused | modules/pow20_index/pow20_index.py:821-843 | the notes are the inscribe events without a transfer event |
| Pow20ExtraTables.ExtraTables.RefillBalances | modules/pow20_index/pow20_index.py:803-819 | balances above the height are replaced by the history's |
| Pow20ExtraTables.ExtraTables.ReorgOnExtraTables | modules/pow20_index/pow20_index.py:803-847 | both tables are what a computation from scratch up to the height gives |
| Pow20ExtraTables.ExtraTables.InitialIndexOfExtraTables | modules/pow20_index/pow20_index.py:849-921 | both tables and the block rows are built from scratch |
| Pow20ExtraTables.ExtraTables.BuildChanges | modules/pow20_index/pow20_index.py:944-949 | the map holds the last row of every account of the block and nothing else |
| Pow20ExtraTables.ExtraTables.UpsertChanges | modules/pow20_index/pow20_index.py:951-960 | the accounts upserted so far have their new balance and the others their old one, wherever it stops |
| Pow20ExtraTables.ExtraTables.UpdateNotes | modules/pow20_index/pow20_index.py:962-986 | finished, the notes are those of the block; stopped, they changed only if the block has a movement |
| Pow20ExtraTables.ExtraTables.IndexExtraTables | modules/pow20_index/pow20_index.py:923-989 | finished, both tables agree with the block; stopped before any statement, that of the block row included, the residue check can repair them |
| Pow20ExtraTables.ExtraTables.CheckResidueOnExtraTables | modules/pow20_index/pow20_index.py:683-702 | whatever an interrupted block left is repaired, because notes are never damaged without a trace in the balances; and tables without residue, also ahead of the main tables, are left alone |
| Pow20ExtrasRun.DifferenceIsFork | modules/pow20_index/pow20_index.py:991-1005 | the first differing stored hash is the fork |
| Pow20ExtrasRun.SharedRows | modules/pow20_index/pow20_index.py:991-1036 | replays of chains with a common prefix have the same rows up to it |
| Pow20ExtrasRun.Pow20KeepsTables | modules/pow20_index/pow20_index.py:459-652 | the POW-20 indexer gives the derived tables what they rely on |
| Pow20ExtrasRun.TrackedIsScratch | modules/pow20_index/pow20_index.py:849-921 | tracking a replay means being what is computed from scratch from its tables |
| Pow20ExtrasRun.NewTablesTrack | modules/pow20_index/pow20_index.py:849-921 | empty derived tables track the empty chain |
| Pow20ExtrasRun.StartsAtFork | modules/pow20_index/pow20_index.py:991-1023 | catching up starts at the fork exactly when the fork is not at height 0 |
| Pow20ExtrasRun.ForkAtZeroIsMissed | modules/pow20_index/pow20_index.py:991-1023 | a fork at height 0 is taken for nothing to do |
| Pow20ExtrasRun.StartIsRight | modules/pow20_index/pow20_index.py:991-1023 | unless a fork is at height 0: nothing is done exactly when the derived tables have all blocks already; else catching up starts on shared blocks |
| Pow20ExtrasRun.RowsTellAhead | modules/pow20_index/pow20_index.py:1015-1023 | the stored block rows tell exactly whether the derived tables are ahead on the same chain |
| Pow20ExtrasRun.CheckedIsScratch | modules/pow20_index/pow20_index.py:1015-1023 | tables left by a finished check equal a computation from scratch exactly when they were not ahead |
| Pow20ExtrasRun.HeightToCheck | modules/pow20_index/pow20_index.py:991-1023 | the loops find the specified height to start at and the last indexed height |
| Pow20ExtrasRun.CatchUpStep | modules/pow20_index/pow20_index.py:1024-1036 | one block more is tracked, or the process stopped inside it |
| Pow20ExtrasRun.CheckExtraTables | modules/pow20_index/pow20_index.py:991-1036 | after the main tables moved to any chain with the same first block, the derived tables end up tracking it, or the process stopped inside one block of it; finished, they are those computed from scratch exactly unless the main block rows are a proper prefix of theirs, and then nothing was touched |
| Pow20ExtrasRun.Resume | modules/pow20_index/pow20_index.py:683-702 | after a stop inside a block, the repaired tables track the blocks done so far |
| Pow20FullRun.Derive | modules/pow20_index/pow20_index.py:991-1036 | a check of the derived tables, stopped or finished, leaves them tracking blocks or inside one; finished, they are those computed from scratch exactly unless they were ahead before |
| Pow20FullRun.TakeTurn | modules/pow20_index/pow20_index.py:1041-1090 | one turn, stopped anywhere, keeps main and derived tables following the chains seen |
| Pow20FullRun.CheckedIsDerived | modules/pow20_index/pow20_index.py:1015-1036 | after a finished check the derived tables have all blocks of the main tables and track blocks seen; they equal a computation from scratch exactly when the main block rows are not a proper prefix of theirs |
| Pow20FullRun.FullRun | modules/pow20_index/pow20_index.py:1041-1090 | over every run from empty tables, with stops and restarts anywhere: the main tables are those of the main loop, and after a finished check the derived tables are those computed from scratch, exactly unless the main block rows are a proper prefix of theirs |
| Pow20Ahead.LeftBehind | modules/pow20_index/pow20_index.py:1048-1090 | a chain that leaves for another one and comes back, with at least two and at most nine blocks rolled back in between, leaves the main tables with one block above the fork, fewer than before |
| Pow20Ahead.StillAhead | modules/pow20_index/pow20_index.py:1015-1023 | derived tables that have a longer stretch of the same chain are left alone, and are not those computed from scratch |
| Pow20Ahead.SuchARun | modules/pow20_index/pow20_index.py:1048-1090 | a concrete run of five passes that ends with fewer blocks than after three |
| Pow20Ahead.SuchTables | modules/pow20_index/pow20_index.py:1015-1023 | derived tables right after the third of its passes are left alone and wrong after the fifth |
| Brc20Sums.TotalUpdate | modules/brc20_index/src/database/brc20_database.rs:1654-1677 | setting one account changes its ticker's total by the difference and no other total |
| Brc20Sums.EventsAreUnique | modules/brc20_index/src/database/brc20_database.rs:1331-1375 | no inscription has two events of a kind, and each transfer spends an earlier inscribe event |
| Brc20Sums.LockedSpent | modules/brc20_index/src/indexer/event_processor.rs:439-649 | spending an inscription releases exactly its own amount from the locked total |
| Brc20Sums.LockedPush | modules/brc20_index/src/indexer/event_processor.rs:395-649 | how the locked amount of every account changes with each recorded event |
| Brc20Invariants.Bounds | modules/brc20_index/src/config/config.rs:222 | in a sound ledger available is at most overall, and every quantity is at most the maximum supply, which fits 128 bits |
| Brc20Invariants.DeployKeeps | modules/brc20_index/src/indexer/event_processor.rs:328-351 | deploying succeeds and keeps the invariant |
| Brc20Invariants.MintKeeps | modules/brc20_index/src/indexer/event_processor.rs:353-393 | minting succeeds and keeps supply conserved |
| Brc20Invariants.InscribeKeeps | modules/brc20_index/src/indexer/event_processor.rs:395-437 | inscribing a transfer locks exactly its amount |
| Brc20Invariants.SourceHolds | modules/brc20_index/src/indexer/event_processor.rs:453-530 | the source of an unspent transfer still holds what it locked, so no subtraction underflows |
| Brc20Invariants.TransferConserves | modules/brc20_index/src/indexer/event_processor.rs:474-641 | returned, moved or burned, a spent transfer conserves the supply, at all five destinations |
| Brc20Invariants.TransferUnlocks | modules/brc20_index/src/indexer/event_processor.rs:474-641 | overall minus available falls by the amount at the source and nowhere else, also when the source is the receiver or the module |
| Brc20Invariants.TransferKeeps | modules/brc20_index/src/indexer/event_processor.rs:439-649 | spending a transfer succeeds and keeps the whole invariant |
| Brc20Invariants.WithdrawKeeps | modules/brc20_index/src/indexer/event_processor.rs:225-326 | a withdrawal fails exactly when granted without a target, and otherwise keeps the invariant |
| Brc20Run.TransferGenerated | modules/brc20_index/src/indexer/event_generator.rs:575-704 | the amount read again from the content when an inscription is spent is the amount that was locked |
| Brc20Run.GenerateGenerates | modules/brc20_index/src/indexer/brc20_indexer.rs:1298-2110 | every generated event meets what its processing needs |
| Brc20Run.ProcessKeeps | modules/brc20_index/src/indexer/event_processor.rs:225-649 | processing a generated event fails only for a withdrawal without a target, and keeps the invariant |
| Brc20Run.ExecKeeps | modules/brc20_index/src/indexer/brc20_indexer.rs:1298-2110 | one transfer fails exactly for a withdrawal that cannot be spent or has no target, and keeps the invariant |
| Brc20Run.RunsKeep | modules/brc20_index/src/indexer/brc20_indexer.rs:1260-2134 | in every reachable ledger supply is conserved, locks are backed and nothing was spent twice |
| Brc20Run.SpentAtMostOnce | modules/brc20_index/src/indexer/brc20_indexer.rs:1260-2134 | over every run no inscription has two events of one kind, so none is transferred twice |
| Brc20Run.GeneratedIsNew | modules/brc20_index/src/indexer/event_generator.rs:459-704 | a generated event was not recorded before |
| Brc20Run.LightStepAgrees | modules/brc20_index/src/indexer/brc20_indexer.rs:917-1257 | a light node does to a published event what the full node does |
| Brc20Run.ReplayAgrees | modules/brc20_index/src/indexer/brc20_indexer.rs:917-1257 | replaying what a full node published reaches its ledger, whenever caches are cleared |
| Brc20Units.GenerateFine | modules/brc20_index/src/indexer/event_generator.rs:459-704 | every generated amount is a whole number of its ticker's units |
| Brc20Units.ProcessInUnits | modules/brc20_index/src/indexer/event_processor.rs:225-649 | processing keeps supplies, balances and events in units |
| Brc20Units.RunsStayInUnits | modules/brc20_index/src/indexer/brc20_indexer.rs:1260-2134 | over every run all quantities of a ticker stay multiples of 10^(18-dec) |
| Brc20Database.EventKeyInjective | modules/brc20_index/src/database/brc20_database.rs:1214-1219 | type number and inscription id run together never collide |
| Brc20Database.BalanceKeyInjective | modules/brc20_index/src/database/brc20_database.rs:1607-1652 | keys of the balance cache never collide |
| Brc20Database.SelectIsLast | modules/brc20_index/src/database/brc20_database.rs:1616-1626 | the query by height and id finds the account's last update |
| Brc20Database.AllTickersAgree | modules/brc20_index/src/database/brc20_database.rs:1565-1605 | the query over all tickers finds every balance of the script |
| Brc20Database.UncachedIsStored | modules/brc20_index/src/database/brc20_database.rs:1607-1677 | an account that is not cached has no pending update |
| Brc20Database.UncachedEvent | modules/brc20_index/src/database/brc20_database.rs:1221-1268 | an event that is not cached is not pending |
| Brc20Database.TableValidityMeans | modules/brc20_index/src/database/brc20_database.rs:1501-1558 | counting rows says `Valid` exactly when the inscription can be spent |
| Brc20Database.EffectiveIsTruthful | modules/brc20_index/src/database/brc20_database.rs:1501-1558 | the cached or counted validity is `Valid` whenever the inscription can be spent, and stale only while the event cache still refuses it |
| Brc20Database.JudgementTruthful | modules/brc20_index/src/database/brc20_database.rs:1560-1563 | the validity set after recording an event is truthful |
| Brc20Database.ClearedTogether | modules/brc20_index/src/database/brc20_database.rs:1897-1908 | a spent inscription that is judged `Valid` is refused by the event cache; with that cache alone cleared a second spending would be recorded; with both cleared it is refused |
| Brc20Database.FlushAdded | modules/brc20_index/src/database/brc20_database.rs:567-576 | a pending new ticker is flushed as it was added |
| Brc20Database.FlushUpdated | modules/brc20_index/src/database/brc20_database.rs:578-594 | a pending update is flushed onto the ticker it updates |
| Brc20Store.Store.GetTicker | modules/brc20_index/src/database/brc20_database.rs:596-602 | the ticker of the ledger the store stands for |
| Brc20Store.Store.AddTicker | modules/brc20_index/src/database/brc20_database.rs:567-576 | adds one ticker to the ledger, or refuses exactly a known one |
| Brc20Store.Store.UpdateTicker | modules/brc20_index/src/database/brc20_database.rs:578-594 | changes one ticker of the ledger, or refuses exactly an unknown one |
| Brc20Store.Store.AddEvent | modules/brc20_index/src/database/brc20_database.rs:1271-1375 | appends one event to the log, or refuses exactly one that is cached |
| Brc20Store.Store.GetEventWithType | modules/brc20_index/src/database/brc20_database.rs:1221-1268 | cache or table, the answer is that of the whole log |
| Brc20Store.Store.GetTransferValidity | modules/brc20_index/src/database/brc20_database.rs:1501-1558 | the cached or counted validity, which is then cached |
| Brc20Store.Store.GetBalance | modules/brc20_index/src/database/brc20_database.rs:1607-1652 | cache or table, the answer is that of a plain map |
| Brc20Store.Store.GetBalanceAllTickers | modules/brc20_index/src/database/brc20_database.rs:1565-1605 | exactly the script's balances, given that none is pending |
| Brc20Store.Store.UpdateBalance | modules/brc20_index/src/database/brc20_database.rs:1654-1677 | changes one balance of the ledger |
| Brc20Store.Store.FlushQueriesToDb | modules/brc20_index/src/database/brc20_database.rs:1679-1895 | nothing is pending any more, no answer changed, and the ticker table holds the tickers in memory |
| Brc20Store.Store.UpdateTickerRows | modules/brc20_index/src/database/brc20_database.rs:1744-1757 | every named row is updated once, in any order |
| Brc20Store.Store.ClearCaches | modules/brc20_index/src/database/brc20_database.rs:1897-1908 | with nothing pending, no answer changes |
| Brc20Store.Store.Init | modules/brc20_index/src/database/brc20_database.rs:239-263 | a new process stands for what the tables hold |
| Brc20Store.Store.Restart | modules/brc20_index/src/database/brc20_database.rs:239-263 | a restart after a flush loses nothing |
| Brc20Node.SoundIsSmall | modules/brc20_index/src/config/config.rs:222 | in a sound ledger no sum of two quantities leaves 128 bits |
| Brc20Node.MoveTo | modules/brc20_index/src/indexer/event_processor.rs:499-641 | takes from the source and adds to the target, which may be the source, within 128 bits |
| Brc20Node.Burn | modules/brc20_index/src/indexer/event_processor.rs:510-600 | takes from the source and adds to the ticker's burned supply |
| Brc20Node.ProcessDeployInscribe | modules/brc20_index/src/indexer/event_processor.rs:328-351 | the new ticker has all its supply to mint and none burned |
| Brc20Node.ProcessMintInscribe | modules/brc20_index/src/indexer/event_processor.rs:353-393 | moves the amount from the remaining supply to the minter |
| Brc20Node.ProcessTransferInscribe | modules/brc20_index/src/indexer/event_processor.rs:395-437 | locks the amount and judges the inscription valid |
| Brc20Node.Settle | modules/brc20_index/src/indexer/event_processor.rs:474-641 | all five ends of a transfer change the ledger as specified |
| Brc20Node.ProcessTransferTransfer | modules/brc20_index/src/indexer/event_processor.rs:439-649 | settles exactly a valid inscription, and marks it used except where a deposit is burned or refused and the judgement stays |
| Brc20Node.ProcessWithdrawTransfer | modules/brc20_index/src/indexer/event_processor.rs:225-326 | moves the amount from the module exactly when granted and not sent to an OP_RETURN |
| Brc20Indexer.Dispatch | modules/brc20_index/src/indexer/event_processor.rs:212-649 | every kind of event is processed as the ledger says, within 128 bits |
| Brc20Indexer.ProcessRecorded | modules/brc20_index/src/indexer/event_processor.rs:212-649 | processing the event just recorded makes caches, pending rows and validity consistent again |
| Brc20FullNode.RecordEvent | modules/brc20_index/src/database/brc20_database.rs:1271-1375 | the event is recorded, or refused exactly when cached |
| Brc20FullNode.CheckValidity | modules/brc20_index/src/database/brc20_database.rs:1501-1558 | `Valid` means spendable unless the event cache refuses the spending; any other answer means not spendable |
| Brc20FullNode.CheckCommitment | modules/brc20_index/src/indexer/brc20_indexer.rs:1849-1918 | a six-byte ticker passes exactly under a matching commitment of its parent that is three blocks old |
| Brc20FullNode.ReadSelfMint | modules/brc20_index/src/indexer/brc20_indexer.rs:1807-1933 | the rules for tickers of five and six bytes |
| Brc20FullNode.ReadDeploy | modules/brc20_index/src/indexer/brc20_indexer.rs:1747-1962 | a deploy is accepted with exactly the specified supply, limit and rules |
| Brc20Predeploy.DeployIsCommitted | modules/brc20_index/src/indexer/brc20_indexer.rs:1840-1918 | a six-byte ticker is deployed only under a commitment to it that is three blocks old |
| Brc20Predeploy.CommitmentBinds | modules/brc20_index/src/indexer/brc20_indexer.rs:1896-1918 | deploys under equal commitments name the same ticker |
| Brc20FullNode.GenerateDeployInscribe | modules/brc20_index/src/indexer/event_generator.rs:459-493 | the accepted deploy is recorded |
| Brc20FullNode.GenerateMintInscribe | modules/brc20_index/src/indexer/event_generator.rs:495-573 | the accepted mint, clamped to the remaining supply, is recorded |
| Brc20FullNode.GenerateTransferInscribe | modules/brc20_index/src/indexer/event_generator.rs:575-621 | recorded exactly when the available balance covers the amount |
| Brc20FullNode.RecordSpending | modules/brc20_index/src/database/brc20_database.rs:1331-1375 | a spending is recorded exactly when the inscription was inscribed and not spent, even when its cached validity is stale |
| Brc20FullNode.GenerateTransferTransfer | modules/brc20_index/src/indexer/event_generator.rs:623-704 | recorded exactly once for each inscribed transfer, with its recorded source |
| Brc20FullNode.GenerateWithdrawTransfer | modules/brc20_index/src/indexer/event_generator.rs:341-400 | recorded exactly when the withdrawal was inscribed and not spent; otherwise the block ends |
| Brc20FullNode.GenerateWithdrawEvent | modules/brc20_index/src/indexer/brc20_indexer.rs:1653-1745 | withdrawals are generated as specified |
| Brc20FullNode.GenerateEvent | modules/brc20_index/src/indexer/brc20_indexer.rs:1298-1651 | the checks every transfer goes through generate what the ledger says |
| Brc20FullNode.IndexTransfer | modules/brc20_index/src/indexer/brc20_indexer.rs:1298-2110 | generating and processing one transfer on the database is one step of the ledger |
| Brc20FullNode.IndexBlock | modules/brc20_index/src/indexer/brc20_indexer.rs:1260-2134 | a block on the database is a run of the ledger, keeps its invariant, and ends with everything flushed |
| Brc20LightNode.PublishedReplays | modules/brc20_index/src/indexer/brc20_indexer.rs:917-1257 | everything a full node publishes meets what a light node needs |
| Brc20LightNode.ProcessEvent | modules/brc20_index/src/indexer/brc20_indexer.rs:917-1257 | recording and processing a published event is one step of the replay, which fails exactly when the replay does or the module refuses the deposit |
| Brc20LightNode.ProcessEvents | modules/brc20_index/src/indexer/brc20_indexer.rs:917-1257 | a block of published events succeeds exactly when its replay does and the module takes every deposit; it is then the replay of the ledger, with everything flushed |
| Brc20LightNode.FollowFullNode | modules/brc20_index/src/indexer/brc20_indexer.rs:917-2134 | after a block both nodes stand for the same tickers, balances and events, exactly when the full node indexed it and the light node's module took every deposit |
| Brc20Deaths.DieInBlock | modules/brc20_index/src/database/brc20_database.rs:239-263 | a full node that dies inside a block and starts again has the ledger from before the block |
| Brc20Deaths.DieInEvents | modules/brc20_index/src/database/brc20_database.rs:239-263 | so has a light node, also when its module refuses a deposit |
| Brc20Rollback.Database.SumMinted | modules/brc20_index/src/database/brc20_database.rs:970-988 | for every ticker, the amount minted above the height |
| Brc20Rollback.Database.GiveBack | modules/brc20_index/src/database/brc20_database.rs:989-998 | every surviving ticker gets back exactly its amount |
| Brc20Rollback.Database.Reorg | modules/brc20_index/src/database/brc20_database.rs:955-1064 | the tables are rolled back as specified |
| Brc20Rollback.RollbackRestores | modules/brc20_index/src/database/brc20_database.rs:955-1064 | rolling back any run above a height restores balances, events and tickers but for what was burned |
| Brc20Rollback.RollbackIsInverse | modules/brc20_index/src/database/brc20_database.rs:988-998 | it is the inverse of indexing exactly when nothing of an older ticker was burned above the height |
| Brc20Rollback.SupplyOverstated | modules/brc20_index/src/database/brc20_database.rs:988-998 | after it, the supply is overstated by exactly what was burned |
| Brc20BurnRun.RunsFromNothing | modules/brc20_index/src/indexer/brc20_indexer.rs:1260-2134 | a deploy, a mint, an inscribed transfer and its burning run from empty tables |
| Brc20BurnRun.BurnIsNotUndone | modules/brc20_index/src/database/brc20_database.rs:988-998 | an instance from empty tables: a burn that a rollback does not undo |
| Brc20Rollback.Database.CheckResidue | modules/brc20_index/src/database/brc20_database.rs:929-951 | finds exactly the rows above the newest block row, except rows of a block at height 0 |
| Brc20Restart.BlockIsUndone | modules/brc20_index/src/database/brc20_database.rs:955-1064 | rolling back a flushed block gives the tables from before it, with what it burns burned already |
| Brc20Restart.StartAgain | modules/brc20_index/src/indexer/brc20_indexer.rs:302-345 | a new process has the tables that the residue check leaves, rolled back or not |
| Brc20Restart.DieAfterFlush | modules/brc20_index/src/indexer/brc20_indexer.rs:302-345 | a full node that dies between flush and block row starts again with the ledger from before the block but for what the block burns of older tickers, so with the same ledger exactly when that is nothing; at height 0 the block stays |
| Brc20Restart.DieAfterEvents | modules/brc20_index/src/indexer/brc20_indexer.rs:302-345 | so does a light node |
| Brc20Chain.FollowBlock | modules/brc20_index/src/indexer/brc20_indexer.rs:358-557 | after any number of failed attempts at a block, both nodes have the ledger of one uninterrupted run of it, exactly unless one of them died behind the flush of a block that burns something of an older ticker; then by how much it is astray |
| Brc20Chain.FollowChain | modules/brc20_index/src/indexer/brc20_indexer.rs:358-557 | over any chain of blocks, wherever processes die and caches are cleared: both nodes have the ledger of one uninterrupted run, exactly unless one died so; then at which block, and by how much it is astray |
| Brc20Chain.FollowFromStart | modules/brc20_index/src/indexer/brc20_indexer.rs:358-557 | the same from empty tables |
| Brc20Refund.GetInscriptionIdForTickerRefundHex | modules/brc20_index/src/indexer/brc20_swap_refund.rs:138-148 | the hexadecimal text padded to 64 digits |
| Brc20Refund.RefundIdForm | modules/brc20_index/src/indexer/brc20_swap_refund.rs:138-148 | the made-up id has the form of an inscription id |
| Brc20Refund.RefundIdsDiffer | modules/brc20_index/src/indexer/brc20_swap_refund.rs:138-148 | tickers without NUL bytes get different ids in spite of the padding |
| Brc20Refund.RefundMoves | modules/brc20_index/src/indexer/brc20_swap_refund.rs:52-130 | inscribing and spending everything moves exactly it and keeps the ledger sound |
| Brc20Refund.RefundTicker | modules/brc20_index/src/indexer/brc20_swap_refund.rs:52-130 | the pair of events of one ticker goes through, exactly unless part of the holding is locked, and keeps the whole invariant |
| Brc20Refund.GenerateAndProcessRefunds | modules/brc20_index/src/indexer/brc20_swap_refund.rs:19-135 | succeeds exactly when no part of what the module holds is locked; then the module is emptied in every ticker, the target gains exactly that, no other balance changes, in any order |
| Brc20RefundBlock.IndexRefundBlock | modules/brc20_index/src/indexer/brc20_indexer.rs:1260-1292 | the refund and then the run of the block's transfers, flushed; without transfers nothing is written |
| Brc20RefundBlock.DieAfterRefund | modules/brc20_index/src/indexer/brc20_indexer.rs:1272-1292 | a process that dies after the refund of a block without transfers has the ledger from before the refund |
| Brc20RefundBlock.RefundIsLost | modules/brc20_index/src/indexer/brc20_indexer.rs:1272-1292 | what was lost is something exactly when the module held something |
| HashChain.SameTrimmed | modules/brc20_index/src/database/brc20_database.rs:455-504 | events collected one by one and events joined from the table trim to the same text |
| HashChain.ChainAgrees | modules/brc20_index/src/database/brc20_database.rs:529-541 | two nodes have equal cumulative hashes at a block exactly when all their texts up to it agree |
| HashChain.FirstDivergence | modules/brc20_index/src/database/brc20_database.rs:529-541 | the first differing cumulative hash is the first differing block text |
| HashChain.SameChain | modules/brc20_index/src/database/brc20_database.rs:354-383 | recomputing from the event table gives the hashes written while indexing |
| HashChain.HashTable.CacheEvent | modules/brc20_index/src/database/brc20_database.rs:1360-1367 | the event and a separator are appended to its block's text |
| HashChain.HashTable.SetBlockHashes | modules/brc20_index/src/database/brc20_database.rs:506-565 | indexing the next block appends one row to the chain |
| HashChain.HashTable.RecalculateCumulativeEventHashes | modules/brc20_index/src/database/brc20_database.rs:354-383 | whatever the rows from a height held, they then continue the chain of the texts |
| HashValidation.TracesAgree | modules/brc20_index/src/database/brc20_database.rs:542-548 | two nodes have equal cumulative trace hashes exactly when all their traces up to that block agree |
| HashValidation.ValidateBlock | modules/brc20_index/src/indexer/brc20_indexer.rs:702-765 | a block is valid exactly when both nodes know it, the event hashes agree, and the trace hashes agree where they are compared |
| HashValidation.ValidIsAgreement | modules/brc20_index/src/indexer/brc20_indexer.rs:702-765 | which is when the other node knows it, all event texts up to it agree, and all traces unless the other node tells none |
| HashValidation.UntoldTraceIsMissed | modules/brc20_index/src/indexer/brc20_indexer.rs:735-765 | an instance: a node that tells no traces is found to agree although its trace differs |
| HashValidation.FindFirstMismatch | modules/brc20_index/src/indexer/brc20_indexer.rs:675-684 | the search ends at an invalid height just above a valid one, or at the first height |
| HashValidation.Validate | modules/brc20_index/src/indexer/brc20_indexer.rs:654-700 | nothing is found exactly when the last block is valid; otherwise the advice is to go back below the height found, or to reset when it is too far back |
| HashValidation.AdviceIsRight | modules/brc20_index/src/indexer/brc20_indexer.rs:654-700 | where the other node answers completely, nothing is found exactly when all blocks agree, and the height to go back to is the last up to which they agree |
| Varint.EncodeToVec | ord/crates/ordinals/src/varint.rs:3-9 | appends the encoding of the number |
| Varint.VarintDecode | ord/db_reader/src/server.rs:124-146 | the shifting loop gives the value and length, or the error, that the bytes denote |
| Varint.DecodedFits | ord/db_reader/src/server.rs:124-146 | no decoded number exceeds 128 bits |
| Varint.DecodeEncode | ord/crates/ordinals/src/varint.rs:3-33 | decoding reads back every 128-bit number and its length, whatever follows |
| UtxoEntry.UtxoEntryBuf.PushValue | ord/src/index/utxo_entry.rs:105-107 | an empty buffer becomes an entry with this value and no inscriptions |
| UtxoEntry.UtxoEntryBuf.PushInscription | ord/src/index/utxo_entry.rs:109-112 | the entry has one more inscription at the end |
| UtxoEntry.UtxoEntryBuf.Empty | ord/src/index/utxo_entry.rs:114-120 | the entry has value zero and no inscriptions |
| UtxoEntry.ParseInscriptions | ord/src/index/utxo_entry.rs:65-86 | the loop over offsets reads the list the bytes denote |
| UtxoEntry.Parse | ord/src/index/utxo_entry.rs:38-50 | the value, and the bytes of the list |
| UtxoEntry.GetUtxoEntryFromRaw | ord/db_reader/src/server.rs:167-197 | the database reader's loop reads the same entry |
| UtxoEntry.EntryRoundTrip | ord/src/index/utxo_entry.rs:38-112 | a built entry reads back as its value and its whole list |
| UtxoEntry.ReadBack | ord/db_reader/src/server.rs:167-197 | both readers give back the value and every inscription, in order |
| Prefetch.HeldUpTo | ord/src/index/updater.rs:618-707 | what is in the map in the middle of a block: what was there before or was created in the block, unless spent |
| Prefetch.AbsentIffRequested | ord/src/index/updater.rs:552-671 | when it is processed, an input is missing exactly when the scan before the block requested it |
| Prefetch.BlockIsFaithful | ord/src/index/updater.rs:631-671 | every input of every transaction is given the value of the output it spends |
| Prefetch.SameOrdinaryBlock | ord/src/index/updater.rs:524-707 | special outpoints do not influence the others |
| Prefetch.Updater.RequestMissing | ord/src/index/updater.rs:552-593 | the scan requests exactly the missing outpoints, in order |
| Prefetch.Updater.TakeInput | ord/src/index/updater.rs:643-671 | the entry is taken from the cache, else the database, else the next answer |
| Prefetch.Updater.TakeInputs | ord/src/index/updater.rs:631-671 | each input of a transaction gets its own entry, and the queue moves on by exactly its requests |
| Prefetch.Updater.InsertOutputs | ord/src/index/updater.rs:703-706 | the outputs enter the map of unspent outputs |
| Prefetch.Updater.IndexTx | ord/src/index/updater.rs:618-707 | one transaction changes cache and database as it would one map |
| Prefetch.Updater.IndexUtxoEntries | ord/src/index/updater.rs:524-707 | a block changes cache and database as it would one map, and leaves the queue empty |
| Prefetch.Updater.Commit | ord/src/index/updater.rs:737-780 | everything but the special outpoints moves into the database |
| Prefetch.IndexBlocks | ord/src/index/updater.rs:77-236 | over any blocks and any commits the unspent outputs are those of one plain map |
| Fetcher.SortedAnswers | ord/src/index/fetcher.rs:95-121 | sorted by id, the i-th response answers the i-th request |
| Fetcher.GetTransactions | ord/src/index/fetcher.rs:49-121 | whatever the node answers: the results of the first answered try, sorted by id, unless one is an error or the tries are used up; from a node that answers one to one they are the requested transactions in order |
| Fetcher.OneToOneMatters | ord/src/index/fetcher.rs:49-121 | truthful responses are accepted as the requested transactions exactly when there is one for each request |
| Fetcher.ChunksFit | ord/src/index/updater.rs:395-402 | a batch is split into no more requests than run in parallel |
| Fetcher.FetchChunks | ord/src/index/updater.rs:395-410 | the joined chunks are the batch's transactions in order |
| Fetcher.Serve | ord/src/index/updater.rs:355-426 | however requests are batched, the outputs are sent in the order of the requests |
| Fetcher.ServedIsAnswers | ord/src/index/updater.rs:355-426 | what the fetcher sends is what the updater expects |
| Inscriptions.ChunksJoin | ord/src/inscriptions/tag.rs:33-52 | chunks join to the value, fit a push, and are several exactly when the value is too long for one |
| Inscriptions.AppendArray | ord/src/inscriptions/tag.rs:54-65 | every value is pushed under its tag, in order |
| Inscriptions.Append | ord/src/inscriptions/tag.rs:33-52 | a field is pushed once, or chunk by chunk under its tag |
| Inscriptions.AppendRevealScriptToBuilder | ord/src/inscriptions/inscription.rs:122-146 | appends exactly one envelope with all fields and the body |
| Inscriptions.AppendBatchRevealScriptToBuilder | ord/src/inscriptions/inscription.rs:148-157 | appends the envelopes of all inscriptions in order |
| Envelopes.ReadPayloadLoop | ord/src/inscriptions/envelope.rs:164-256 | the loop over instructions reads the payload, or that there is none, and says what it consumed |
| Envelopes.ReadEnvelope | ord/src/inscriptions/envelope.rs:148-258 | consumes exactly what it accepts, and reports a stutter |
| Envelopes.ParseTapscript | ord/src/inscriptions/envelope.rs:118-146 | the loop with its peeking iterator finds the specified envelopes |
| EnvelopeRoundTrip.Take | ord/src/inscriptions/tag.rs:67-91 | the tag's value, and the fields without it |
| EnvelopeRoundTrip.TakeArray | ord/src/inscriptions/tag.rs:93-100 | all values of the tag, and the fields without it |
| EnvelopeRoundTrip.TakeFields | ord/src/inscriptions/envelope.rs:54-92 | draining the map tag by tag reads every field from the full map, and an even tag left over is reported |
| EnvelopeRoundTrip.GatherPairs | ord/src/inscriptions/envelope.rs:29-52 | the pairs before the body, and whether one is incomplete |
| EnvelopeRoundTrip.ParseEnvelope | ord/src/inscriptions/envelope.rs:29-92 | the envelope is parsed as specified |
| EnvelopeRoundTrip.GatherSegments | ord/src/inscriptions/envelope.rs:38-52 | printed fields are gathered under each tag in order, and under no other key |
| EnvelopeRoundTrip.PayloadReads | ord/src/inscriptions/envelope.rs:29-92 | a printed inscription is parsed back |
| BatchRoundTrip.ReaderScans | ord/src/inscriptions/envelope.rs:118-258 | the reader, with its peeking iterator and early returns, is an automaton that looks at one instruction at a time |
| BatchRoundTrip.EnclosedScanned | ord/src/inscriptions/envelope.rs:148-258 | an envelope is found behind anything but an unfinished payload, and stutters exactly as the state says |
| BatchRoundTrip.BatchScriptRead | ord/src/inscriptions/envelope.rs:118-258 | what is read of a batch behind any script, in every state the reader can be in |
| BatchRoundTrip.FirstIsLost | ord/src/inscriptions/envelope.rs:148-258 | an instance: behind an opened envelope that is never closed, the first of two inscriptions is lost |
| BatchRoundTrip.NothingOpened | ord/src/inscriptions/envelope.rs:118-146 | behind a script without empty pushes nothing is lost and nothing stutters |
| BatchRoundTrip.PrintThenParse | ord/src/inscriptions/inscription.rs:122-157 | printing a batch behind any script and parsing gives the script's own envelopes, then the inscriptions in order as `ReadBack` says; it fails exactly when the script is broken |
| EnvelopeRoundTrip.ExactRoundTrip | ord/src/inscriptions/inscription.rs:122-157 | an inscription comes back unchanged exactly when no chunked field is present but empty and its flags are what reading computes |
| IdCodecs.TrimLoop | ord/src/inscriptions/inscription_id.rs:54-69 | drops exactly the trailing zero bytes |
| IdCodecs.EncodeId | ord/src/inscriptions/inscription_id.rs:54-69 | writes the short form of the id |
| IdCodecs.IdRoundTrip | ord/src/inscriptions/inscription_id.rs:21-69 | reading the short form of an id gives the id |
| IdCodecs.AcceptedForms | ord/src/inscriptions/inscription_id.rs:21-52 | the reader accepts exactly the short form and the form with four index bytes |
| IdCodecs.EncodePointer | ord/src/inscriptions/inscription.rs:112-120 | writes the pointer without trailing zeros |
| IdCodecs.PointerReads | ord/src/inscriptions/inscription.rs:218-237 | a value reads as a pointer exactly when it is that pointer's value up to trailing zeros |
| IdCodecs.PointerRoundTrip | ord/src/inscriptions/inscription.rs:112-237 | reading the written form of a pointer gives the pointer |
| OrdDecimal.ToIntegerExact | ord/src/decimal.rs:10-25 | for every decimal: the conversion gives n exactly when n units are its value, its scale is at most the divisibility and the factor fits 128 bits |
| OrdDecimal.PositiveToInteger | ord/src/decimal.rs:10-25 | a positive decimal of at most that scale converts exactly when a whole number of units is its value |
| OrdDecimal.ExactButRefused | ord/src/decimal.rs:10-25 | two exact decimals that are refused |
| OrdDecimal.Fmt | ord/src/decimal.rs:27-51 | the loop that drops zeros prints the specified text |
| OrdDecimal.NormalIsSame | ord/src/decimal.rs:27-51 | the normal form denotes the same number and has no trailing fraction zeros |
| OrdDecimal.ReadShow | ord/src/decimal.rs:27-88 | parsing a printed decimal gives its normal form |

## Left out

Weaker than the source, or under a condition:

- Pow20Indexer.Indexer.MainLoop: a block that raises ends the process, which is modelled as a stop at that point; row
  ids are positions in the tables, and JSON values other than strings are not modelled.
- Brc20FullNode.IndexBlock: nothing is said about the database after a block that ends with an error, since it was
  not flushed.
- Brc20FullNode.CheckCommitment: the predeploy event recorded for an inscription is a parameter, since recording one
  moves no balance; UTF-8, hexadecimal decoding and the double digest are parameters too.
- Brc20Rollback.RollbackRestores: the order and number of balance rows a transfer writes are left open.
- Brc20FullNode.RecordEvent: errors the full node logs and goes on from are results here, and they are proved not to
  occur for events recorded for the first time.
- Brc20LightNode.ProcessEvents: the events are assumed to come from a full node, and the comparison of cumulative hashes
  behind them is that of `HashChain`.
- Brc20Chain.FollowChain: ends where a node goes astray, whose further blocks break the conservation of supply; the
  refund block and reorganizations of the chain are not part of it.
- Brc20Node.ProcessWithdrawTransfer: that a granted withdrawal is covered by the module's balance is assumed.
- Brc20Refund.GenerateAndProcessRefunds: the bytes of the prefix and of a ticker are parameters, and the made-up ids
  are assumed to be new.
- Fetcher.FetchChunks: the node is assumed to answer one to one, and so for `Fetcher.Serve`.
- HashValidation.Validate: a request to the other node that fails counts as a height it has no row for, as in the
  source.
- Prefetch.Updater.IndexUtxoEntries: where inscriptions land among the outputs is a function parameter; the queues
  are unbounded.
- BatchRoundTrip.PrintThenParse: at the level of script instructions; their byte encoding is not modelled.
- Fetcher.GetTransactions: the library's sort is an insertion sort, and waiting between tries is not modelled.
- OrdDecimal.ReadShow: an error of the reader and an arithmetic overflow in it are both the absence of a result.
- UtxoEntry.Parse: the source's panics are the absence of a result.

Not modelled:

- Deploy, call and transact events of `brc20_prog`: they move no balance of the ledger.
- The Rust derived tables, and the wallets stored with events.
- `reindex_cumulative_hashes`, reports of hashes, deposit reporting, the network, SQL text, timers, settings, the HTTP
  interfaces, templates and ord's wallet.
- ord's savepoints, runes, satoshi ranges and inscription-entry layouts.
- The assignment of inscriptions to outputs (`inscription_updater.rs` is not part of this model) and the texts of
  events (`types/events` is not part of this model).
- `index_runes.js`, and the bitmap and SNS indexers, which repeat the POW-20 shape.
