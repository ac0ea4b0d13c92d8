/** Six-byte tickers are deployed in two steps: a commitment, and at least three blocks later what it commits to. So
    whoever sees a deploy that is not yet in a block cannot deploy the ticker first. */
module Brc20Predeploy {
  import opened Wrappers
  import opened Text
  import opened Bytes
  import opened Brc20Ledger

  /** The encoding has the length the indexer measures, and no two tickers share it. */
  ghost predicate IsUtf8(utf8: string -> seq<Byte>) {
    && (forall s :: |utf8(s)| == Utf8Length(s))
    && forall s, t :: utf8(s) == utf8(t) ==> s == t
  }

  predicate NoCollision(cfg: Config, a: seq<Byte>, b: seq<Byte>) {
    cfg.digest(a) == cfg.digest(b) ==> a == b
  }

  /** The parent's commitment behind an accepted deploy. */
  function Behind(cfg: Config, tx: Tx): Option<Predeploy> {
    if tx.parentId.None? then None else cfg.predeploys(tx.parentId.value)
  }

  /** What a deploy reveals. */
  function Revealed(cfg: Config, tx: Tx, original: string): Option<seq<Byte>> {
    var js := cfg.content(tx.id);
    if "salt" !in js || Behind(cfg, tx).None? then None
    else SaltedTicker(cfg, original, js["salt"], Behind(cfg, tx).value.pkscript)
  }

  predicate Deploys(cfg: Config, l: Ledger, height: int, tx: Tx, original: string) {
    var g := Generate(cfg, l, height, tx);
    g.Emit? && g.rec.event.DeployInscribe? && g.rec.event.originalTicker == original
  }

  /** A six-byte ticker is deployed only under a commitment to it that is three blocks old. */
  lemma DeployIsCommitted(cfg: Config, l: Ledger, height: int, tx: Tx, original: string)
    requires Deploys(cfg, l, height, tx, original) && Utf8Length(original) == 6
    ensures var p := Behind(cfg, tx);
            && p.Some? && p.value.height <= height - PREDEPLOY_BLOCK_HEIGHT_DELAY
            && Revealed(cfg, tx, original).Some? && p.value.hash == cfg.digest(Revealed(cfg, tx, original).value)
  {
    var js := cfg.content(tx.id);
    assert Generate(cfg, l, height, tx) == GenerateDeploy(cfg, l, height, tx, js, js["tick"]);
  }

  lemma SamePrefix(a: seq<Byte>, b: seq<Byte>, s: seq<Byte>, t: seq<Byte>, x: seq<Byte>, y: seq<Byte>)
    requires |a| == |b| && a + s + x == b + t + y
    ensures a == b
  {
    assert (a + s + x)[..|a|] == a && (b + t + y)[..|b|] == b;
  }

  lemma SameRevealed(cfg: Config, tx: Tx, original: string, tx': Tx, original': string)
    requires IsUtf8(cfg.utf8) && Utf8Length(original) == Utf8Length(original')
    requires Revealed(cfg, tx, original).Some? && Revealed(cfg, tx, original) == Revealed(cfg, tx', original')
    ensures original == original'
  {
    SamePrefix(cfg.utf8(original), cfg.utf8(original'),
               cfg.unhex(cfg.content(tx.id)["salt"]).value, cfg.unhex(cfg.content(tx'.id)["salt"]).value,
               cfg.unhex(Behind(cfg, tx).value.pkscript).value, cfg.unhex(Behind(cfg, tx').value.pkscript).value);
  }

  /** One commitment deploys one ticker: two deploys under equal commitments, in any blocks, name the same ticker. */
  lemma CommitmentBinds(cfg: Config, l: Ledger, height: int, tx: Tx, original: string,
                        l': Ledger, height': int, tx': Tx, original': string)
    requires IsUtf8(cfg.utf8) && Utf8Length(original) == Utf8Length(original') == 6
    requires Deploys(cfg, l, height, tx, original) && Deploys(cfg, l', height', tx', original')
    requires Behind(cfg, tx).Some? && Behind(cfg, tx').Some?
    requires Behind(cfg, tx).value.hash == Behind(cfg, tx').value.hash
    requires Revealed(cfg, tx, original).Some? && Revealed(cfg, tx', original').Some? ==>
               NoCollision(cfg, Revealed(cfg, tx, original).value, Revealed(cfg, tx', original').value)
    ensures original == original'
  {
    DeployIsCommitted(cfg, l, height, tx, original);
    DeployIsCommitted(cfg, l', height', tx', original');
    SameRevealed(cfg, tx, original, tx', original');
  }

}
