/** Sums over the ledger: the total held of a ticker, and the amount locked in unspent transfers. */
module Brc20Sums {
  import opened Wrappers
  import opened MapSums
  import opened Brc20Ledger

  // ---------- the total of a ticker over all accounts ----------

  function Share(ticker: string): (Account, Balance) -> int {
    (account: Account, b: Balance) => if account.0 == ticker then b.overall else 0
  }

  lemma SharesAreNatural(balances: map<Account, Balance>, ticker: string)
    ensures forall account :: account in balances ==> Share(ticker)(account, balances[account]) >= 0
  {
    forall account | account in balances ensures Share(ticker)(account, balances[account]) >= 0 {
      var b := balances[account];
      assert b.overall >= 0;
    }
  }

  ghost function Total(balances: map<Account, Balance>, ticker: string): nat {
    SharesAreNatural(balances, ticker);
    PartOfTotal(balances, Share(ticker), (ticker, ""));
    MapSums.Total(balances, Share(ticker))
  }

  /** Setting one account changes the total of its ticker by the difference, and no other total. */
  lemma TotalUpdate(balances: map<Account, Balance>, t: string, pk: Pkscript, b: Balance, ticker: string)
    ensures Total(balances[(t, pk) := b], ticker) + (if t == ticker then BalanceOf(balances, t, pk).overall else 0)
              == Total(balances, ticker) + if t == ticker then b.overall else 0
  {
    MapSums.TotalUpdate(balances, (t, pk), b, Share(ticker));
  }

  lemma TotalOfAbsent(balances: map<Account, Balance>, ticker: string)
    requires forall account :: account in balances ==> account.0 != ticker
    ensures Total(balances, ticker) == 0
  {
    TotalOfNothing(balances, Share(ticker));
  }

  lemma HoldsAtMostTotal(balances: map<Account, Balance>, ticker: string, pk: Pkscript)
    ensures BalanceOf(balances, ticker, pk).overall <= Total(balances, ticker)
  {
    SharesAreNatural(balances, ticker);
    PartOfTotal(balances, Share(ticker), (ticker, pk));
  }

  // ---------- the amount locked in unspent transfers ----------

  function Weight(rec: Rec, all: seq<Rec>, ticker: string, pk: Pkscript): nat {
    if rec.event.TransferInscribe? && rec.event.ticker == ticker && rec.event.sourcePkscript == pk
       && !Recorded(all, TransferKind, rec.id)
    then rec.event.amount else 0
  }

  /** The amounts of the transfers in `recs` inscribed by `pk` and not spent in `all`. */
  function LockedIn(recs: seq<Rec>, all: seq<Rec>, ticker: string, pk: Pkscript): nat {
    if recs == [] then 0
    else LockedIn(recs[..|recs| - 1], all, ticker, pk) + Weight(recs[|recs| - 1], all, ticker, pk)
  }

  function Locked(log: seq<Rec>, ticker: string, pk: Pkscript): nat {
    LockedIn(log, log, ticker, pk)
  }

  /** What a record must meet when it is appended: inscriptions deploy, mint or inscribe once, and are spent
      once, after they were inscribed. */
  predicate FitsAfter(log: seq<Rec>, rec: Rec) {
    match KindOf(rec.event)
    case InscribeKind => !Recorded(log, InscribeKind, rec.id) && !Recorded(log, TransferKind, rec.id)
    case TransferKind => CanSpend(log, InscribeKind, TransferKind, rec.id)
    case WithdrawInscribeKind =>
      !Recorded(log, WithdrawInscribeKind, rec.id) && !Recorded(log, WithdrawTransferKind, rec.id)
    case WithdrawTransferKind => CanSpend(log, WithdrawInscribeKind, WithdrawTransferKind, rec.id)
    case kind => !Recorded(log, kind, rec.id)
  }

  predicate SpentOnce(log: seq<Rec>) {
    log == [] || (SpentOnce(log[..|log| - 1]) && FitsAfter(log[..|log| - 1], log[|log| - 1]))
  }

  lemma FindPush(log: seq<Rec>, rec: Rec, kind: Kind, id: InscriptionId)
    ensures Find(log + [rec], kind, id)
              == if KindOf(rec.event) == kind && rec.id == id then Some(rec.event) else Find(log, kind, id)
  {
    assert (log + [rec])[..|log|] == log;
  }

  lemma {:induction false} FindIsThere(log: seq<Rec>, kind: Kind, id: InscriptionId)
    requires Find(log, kind, id).Some?
    ensures Rec(id, Find(log, kind, id).value) in log
  {
    var last := log[|log| - 1];
    if !(KindOf(last.event) == kind && last.id == id) {
      FindIsThere(log[..|log| - 1], kind, id);
    } else {
      assert last == Rec(id, last.event);
    }
  }

  lemma {:induction false} ThereIsFound(log: seq<Rec>, i: nat)
    requires i < |log|
    ensures Recorded(log, KindOf(log[i].event), log[i].id)
  {
    if i < |log| - 1 {
      ThereIsFound(log[..|log| - 1], i);
    }
  }

  /** No inscription has two events of one kind, and each transfer spends an earlier inscribe event. */
  lemma {:induction false} EventsAreUnique(log: seq<Rec>, i: nat, j: nat)
    requires SpentOnce(log) && i < j < |log|
    ensures KindOf(log[i].event) == KindOf(log[j].event) ==> log[i].id != log[j].id
    ensures log[j].event.TransferTransfer? ==> CanSpend(log[..j], InscribeKind, TransferKind, log[j].id)
  {
    var front := log[..|log| - 1];
    if j < |log| - 1 {
      EventsAreUnique(front, i, j);
      assert front[..j] == log[..j];
    } else {
      assert front == log[..j];
      ThereIsFound(front, i);
    }
  }

  lemma {:induction false} SpentOncePrefix(log: seq<Rec>, n: nat)
    requires SpentOnce(log) && n <= |log|
    ensures SpentOnce(log[..n])
  {
    if n < |log| {
      SpentOncePrefix(log[..|log| - 1], n);
      assert log[..|log| - 1][..n] == log[..n];
    } else {
      assert log[..n] == log;
    }
  }

  /** Recording anything but a transfer of the inscription leaves an old weight alone. */
  lemma {:induction false} LockedUnspent(recs: seq<Rec>, all: seq<Rec>, rec: Rec, ticker: string, pk: Pkscript)
    requires KindOf(rec.event) != TransferKind
    ensures LockedIn(recs, all + [rec], ticker, pk) == LockedIn(recs, all, ticker, pk)
  {
    if recs != [] {
      LockedUnspent(recs[..|recs| - 1], all, rec, ticker, pk);
      FindPush(all, rec, TransferKind, recs[|recs| - 1].id);
    }
  }

  function WeightOf(e: Option<Event>, ticker: string, pk: Pkscript): nat {
    match e
    case Some(TransferInscribe(source, t, amount)) => if t == ticker && source == pk then amount else 0
    case _ => 0
  }

  /** Spending an inscription releases exactly its own amount. */
  lemma {:induction false} LockedSpent(recs: seq<Rec>, all: seq<Rec>, rec: Rec, ticker: string, pk: Pkscript)
    requires KindOf(rec.event) == TransferKind && SpentOnce(recs) && !Recorded(all, TransferKind, rec.id)
    ensures LockedIn(recs, all + [rec], ticker, pk) + WeightOf(Find(recs, InscribeKind, rec.id), ticker, pk)
              == LockedIn(recs, all, ticker, pk)
  {
    if recs != [] {
      var front, last := recs[..|recs| - 1], recs[|recs| - 1];
      LockedSpent(front, all, rec, ticker, pk);
      FindPush(all, rec, TransferKind, last.id);
    }
  }

  /** How the locked amount of an account changes when a record is appended. */
  lemma LockedPush(log: seq<Rec>, rec: Rec, ticker: string, pk: Pkscript)
    requires SpentOnce(log) && FitsAfter(log, rec)
    ensures Locked(log + [rec], ticker, pk)
              + (if rec.event.TransferTransfer? then WeightOf(Find(log, InscribeKind, rec.id), ticker, pk) else 0)
              == Locked(log, ticker, pk) + WeightOf(Some(rec.event), ticker, pk)
  {
    assert (log + [rec])[..|log|] == log;
    FindPush(log, rec, TransferKind, rec.id);
    if rec.event.TransferTransfer? {
      LockedSpent(log, log, rec, ticker, pk);
    } else {
      LockedUnspent(log, log, rec, ticker, pk);
    }
  }

}
