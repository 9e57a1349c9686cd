/** The receipts that the handlers mint, in whatever interleaving, always form one valid chain. */
module ServerChain {
  import opened ReceiptTypes
  import opened LedgerModel
  import opened Threshold
  import opened Validation
  import opened GeneratorModel
  import opened Settlement
  import Chain = ChainRuns

  /** Keys rotated to are trusted, and threshold signatures come from well-formed groups with trusted keys. */
  ghost predicate LabelOk(cfg: Config, t: Trust, l: Label) {
    match l
    case Advance(_, ch) =>
      ch.signer.SigningGroup? ==>
        && WellFormed(cfg.crypto, ch.signer.group)
        && forall m <- ch.signer.group.members :: Trusted(t.thresholdKeys, m.publicKey)
    case RotateKey(sk) => Trusted(t.oracleKeys, cfg.crypto.publicKey(sk))
    case _ => true
  }

  ghost predicate ChainOk(cfg: Config, t: Trust, g: Gen, store: seq<Receipt>) {
    Chain.GenOk(cfg.crypto, t, g, store) && Chain.StoreOk(cfg.crypto, t, store)
  }

  /** The key the server starts with signed the last stored receipt. */
  predicate SameKey(cfg: Config, boot: Boot) {
    boot.store != [] && boot.store[|boot.store| - 1].oraclePublicKey == cfg.crypto.publicKey(boot.key)
  }

  /** Everything stored since the start is hash-linked; its first receipt is linked exactly if the key is the same. */
  ghost predicate Continues(cfg: Config, boot: Boot, g: Gen, store: seq<Receipt>) {
    var n := |boot.store|;
    && boot.store <= store
    && (forall i | n < i < |store| :: store[i].previousHash.Some?)
    && (n < |store| ==> (store[n].previousHash.Some? <==> SameKey(cfg, boot)))
    && (g.lastHash.Some? <==> n < |store| || SameKey(cfg, boot))
  }

  ghost predicate Good(cfg: Config, t: Trust, boot: Boot, g: Gen, store: seq<Receipt>) {
    ChainOk(cfg, t, g, store) && Continues(cfg, boot, g, store)
  }

  lemma IssueExtends(cfg: Config, t: Trust, boot: Boot, w: World, q: Request)
    requires Lawful(cfg.crypto) && Good(cfg, t, boot, w.gen, w.store) && Chain.OpOk(cfg.crypto, t, Chain.Issue(q))
    ensures var out := IssueOutcome(cfg.crypto, w.gen, w.store, q);
            out.Issued? ==> Good(cfg, t, boot, GeneratorModel.Advance(cfg.crypto, w.gen, out.receipt),
                                 w.store + [out.receipt])
  {
    Chain.IssueKeeps(cfg.crypto, t, w.gen, w.store, q);
  }

  lemma ThreadExtends(cfg: Config, t: Trust, boot: Boot, w: World, tid: nat, ch: Choice)
    requires Lawful(cfg.crypto) && Wf(w.ledger) && tid in w.threads && ChoiceOk(ch)
    requires Good(cfg, t, boot, w.gen, w.store) && LabelOk(cfg, t, Label.Advance(tid, ch))
    ensures var r := ThreadStep(cfg, w, tid, ch); Good(cfg, t, boot, r.gen, r.store)
  {
    match w.threads[tid]
    case EIssue(k, path) =>
      IssueThread(cfg, w, tid, k, path, ch);
      SettlementExtends(cfg, t, boot, w, tid, k, path, ch);
    case CIssue(id, policyID, path) =>
      CheckThread(cfg, w, tid, id, policyID, path, ch);
      CheckExtends(cfg, t, boot, w, tid, id, policyID, path, ch);
    case _ => NothingIssued(cfg, w, tid, ch);
  }

  lemma IssueThread(cfg: Config, w: World, tid: nat, k: Ensure, path: Path, ch: Choice)
    requires Wf(w.ledger) && tid in w.threads && w.threads[tid] == EIssue(k, path) && ChoiceOk(ch)
    ensures ThreadStep(cfg, w, tid, ch) == IssueStep(cfg, w, tid, k, path, ch)
  {
  }

  lemma CheckThread(cfg: Config, w: World, tid: nat, id: string, policyID: string, path: Path, ch: Choice)
    requires Wf(w.ledger) && tid in w.threads && w.threads[tid] == CIssue(id, policyID, path) && ChoiceOk(ch)
    ensures ThreadStep(cfg, w, tid, ch) == CheckIssueStep(cfg, w, tid, id, policyID, path, ch)
  {
  }

  lemma SettlementExtends(cfg: Config, t: Trust, boot: Boot, w: World, tid: nat, k: Ensure, path: Path, ch: Choice)
    requires Lawful(cfg.crypto) && ChoiceOk(ch) && Good(cfg, t, boot, w.gen, w.store)
    requires LabelOk(cfg, t, Label.Advance(tid, ch))
    ensures var r := IssueStep(cfg, w, tid, k, path, ch); Good(cfg, t, boot, r.gen, r.store)
  {
    IssueExtends(cfg, t, boot, w, RequestOf(ch, k.txID, k.policyID, path));
  }

  lemma CheckExtends(cfg: Config, t: Trust, boot: Boot, w: World, tid: nat, id: string, policyID: string, path: Path,
                     ch: Choice)
    requires Lawful(cfg.crypto) && ChoiceOk(ch) && Good(cfg, t, boot, w.gen, w.store)
    requires LabelOk(cfg, t, Label.Advance(tid, ch))
    ensures var r := CheckIssueStep(cfg, w, tid, id, policyID, path, ch); Good(cfg, t, boot, r.gen, r.store)
  {
    IssueExtends(cfg, t, boot, w, RequestOf(ch, id, policyID, path));
  }

  lemma NothingIssued(cfg: Config, w: World, tid: nat, ch: Choice)
    requires Wf(w.ledger) && tid in w.threads && ChoiceOk(ch) && !w.threads[tid].EIssue? && !w.threads[tid].CIssue?
    ensures var r := ThreadStep(cfg, w, tid, ch); r.gen == w.gen && r.store == w.store
  {
    var pc := w.threads[tid];
    if InSettle(pc) { SettleIssuesNothing(cfg, w, tid, pc, ch); }
    else if InEnsure(pc) { EnsureIssuesNothing(cfg, w, tid, pc, ch); }
  }

  lemma EnsureIssuesNothing(cfg: Config, w: World, tid: nat, pc: Pc, ch: Choice)
    requires Wf(w.ledger) && InEnsure(pc) && !pc.EIssue? && ChoiceOk(ch)
    ensures var r := EnsureStep(cfg, w, tid, pc, ch); r.gen == w.gen && r.store == w.store
  {
    match pc
    case ESecond(k) => SecondIssuesNothing(cfg, w, tid, k);
    case EAttach(k, r) => AttachIssuesNothing(w, tid, k, r);
    case _ =>
  }

  lemma SecondIssuesNothing(cfg: Config, w: World, tid: nat, k: Ensure)
    requires Wf(w.ledger)
    ensures var r := SecondStep(cfg, w, tid, k); r.gen == w.gen && r.store == w.store
  {
  }

  lemma AttachIssuesNothing(w: World, tid: nat, k: Ensure, x: Receipt)
    requires Wf(w.ledger)
    ensures var r := AttachStep(w, tid, k, x); r.gen == w.gen && r.store == w.store
  {
  }

  lemma SettleIssuesNothing(cfg: Config, w: World, tid: nat, pc: Pc, ch: Choice)
    requires Wf(w.ledger) && InSettle(pc)
    ensures var r := SettleStep(cfg, w, tid, pc, ch); r.gen == w.gen && r.store == w.store
  {
    if pc.SSubmit? { SubmitIssuesNothing(cfg, w, tid, pc.req, pc.id, pc.vetted); }
  }

  lemma SubmitIssuesNothing(cfg: Config, w: World, tid: nat, req: SettleRequest, id: string, path: Path)
    requires Wf(w.ledger)
    ensures var r := SubmitStep(cfg, w, tid, req, id, path); r.gen == w.gen && r.store == w.store
  {
  }

  lemma NextExtends(cfg: Config, t: Trust, boot: Boot, w: World, l: Label)
    requires Lawful(cfg.crypto) && Wf(w.ledger) && Good(cfg, t, boot, w.gen, w.store) && LabelOk(cfg, t, l)
    ensures var r := Next(cfg, w, l); Good(cfg, t, boot, r.gen, r.store)
  {
    if l.Advance? && Enabled(w, l) { ThreadExtends(cfg, t, boot, w, l.tid, l.choice); }
  }

  /** A server may start on any store whose receipts are numbered, valid and correctly linked where they are linked. */
  ghost predicate BootOk(cfg: Config, t: Trust, boot: Boot) {
    Lawful(cfg.crypto) && Trusted(t.oracleKeys, cfg.crypto.publicKey(boot.key))
        && Chain.StoreOk(cfg.crypto, t, boot.store)
  }

  lemma {:induction false} ServedChainContinues(cfg: Config, t: Trust, boot: Boot, labels: seq<Label>)
    requires BootOk(cfg, t, boot) && forall l <- labels :: LabelOk(cfg, t, l)
    ensures var w := Reach(cfg, boot, labels); Good(cfg, t, boot, w.gen, w.store)
  {
    if labels == [] {
      Chain.SeededOk(cfg.crypto, t, boot.store, boot.key);
    } else {
      var n := |labels| - 1;
      ServedChainContinues(cfg, t, boot, labels[..n]);
      assert LabelOk(cfg, t, labels[n]);
      NextExtends(cfg, t, boot, Reach(cfg, boot, labels[..n]), labels[n]);
    }
  }

  /**
   However handlers interleave and keys rotate: the stored receipts are kept, what this server has added
   is one valid chain, and the whole store is one valid chain if and only if it was one at the start and
   the server either added nothing or started with the key of the last stored receipt.
   */
  lemma ServedChainVerifies(cfg: Config, t: Trust, boot: Boot, labels: seq<Label>)
    requires BootOk(cfg, t, boot) && forall l <- labels :: LabelOk(cfg, t, l)
    ensures var old', store := boot.store, Reach(cfg, boot, labels).store;
            && old' <= store
            && (|old'| < |store| ==> ChainValid(cfg.crypto, t, store[|old'|..]))
            && (old' == [] && store != [] ==> ChainValid(cfg.crypto, t, store))
            && (old' != [] ==> (ChainValid(cfg.crypto, t, store) <==>
                                  ChainValid(cfg.crypto, t, old') && (store == old' || SameKey(cfg, boot))))
  {
    var store, n := Reach(cfg, boot, labels).store, |boot.store|;
    ServedChainContinues(cfg, t, boot, labels);
    if n < |store| {
      Chain.SegmentValidates(cfg.crypto, t, store, n, |store|);
      assert store[n..|store|] == store[n..];
      WholeChainIff(cfg, t, boot, store);
    } else {
      assert store == boot.store;
    }
  }

  lemma WholeChainIff(cfg: Config, t: Trust, boot: Boot, store: seq<Receipt>)
    requires Chain.StoreOk(cfg.crypto, t, store) && Chain.StoreOk(cfg.crypto, t, boot.store)
    requires boot.store < store && forall i | |boot.store| < i < |store| :: store[i].previousHash.Some?
    requires store[|boot.store|].previousHash.Some? <==> SameKey(cfg, boot)
    ensures ChainValid(cfg.crypto, t, store) <==>
              boot.store == [] || (ChainValid(cfg.crypto, t, boot.store) && SameKey(cfg, boot))
  {
    Chain.WholeStoreValid(cfg.crypto, t, store);
    if boot.store != [] { Chain.WholeStoreValid(cfg.crypto, t, boot.store); }
    assert forall i | 0 <= i < |boot.store| :: boot.store[i] == store[i];
  }
}
