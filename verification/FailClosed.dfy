/** Fail-closed compliance over every interleaving of the handlers. */
module FailClosed {
  import opened Base
  import opened ReceiptTypes
  import opened LedgerModel
  import opened LedgerRuns
  import opened GeneratorModel
  import opened StoreModel
  import opened Settlement
  import Once = ExactlyOnce

  /** The request digest determines the request: its two hashes are injective and never empty. */
  ghost predicate DigestBinds(cfg: Config) {
    && (forall a, b :: cfg.rawHash(a) == cfg.rawHash(b) ==> a == b)
    && (forall p, q :: cfg.payloadHash(p) == cfg.payloadHash(q) ==> p == q)
    && (forall p :: cfg.payloadHash(p) != "")
  }

  type Origins = map<string, SettleRequest>

  /** These raw bytes extract to a path that complies with the policy. */
  predicate RawVetted(cfg: Config, policyID: string, raw: Bytes) {
    cfg.extract(raw).Some? && Vetted(cfg, policyID, cfg.extract(raw).value)
  }

  /** A recorded transaction carries the digest, policy and path fingerprint of the request that submitted it. */
  predicate TxOk(cfg: Config, origin: Origins, tx: Transaction) {
    && tx.id in origin
    && tx.requestDigest == Digest(cfg, origin[tx.id], tx.id) && tx.policyID == origin[tx.id].policyID
    && RawVetted(cfg, tx.policyID, Raw(origin[tx.id]))
    && tx.pathFingerprint == cfg.extract(Raw(origin[tx.id])).value.fingerprint
  }

  /** Policy and path are those of the request that submitted id, and the policy allows the path. */
  predicate Owned(cfg: Config, origin: Origins, id: string, policyID: string, path: Path) {
    && id in origin && policyID == origin[id].policyID && cfg.extract(Raw(origin[id])) == Some(path)
    && Vetted(cfg, policyID, path)
  }

  /** ensureSettlementReceipt is called with the policy and the path bytes of the request that submitted the ID. */
  predicate EnsureOk(cfg: Config, origin: Origins, k: Ensure) {
    && k.txID in origin && k.rawPath == Raw(origin[k.txID])
    && cfg.extract(k.rawPath).Some? && Owned(cfg, origin, k.txID, k.policyID, cfg.extract(k.rawPath).value)
    && (k.path.Some? ==> k.path == cfg.extract(k.rawPath))
  }

  predicate PcOk(cfg: Config, origin: Origins, pc: Pc) {
    match pc
    case SLookup(req, _) => req.from != ""
    case SSubmit(req, _, path) =>
      req.from != "" && Vetted(cfg, req.policyID, path) && cfg.extract(Raw(req)) == Some(path)
    case SRound(req, id, path) => id in origin && origin[id] == req && Owned(cfg, origin, id, req.policyID, path)
    case EFirst(k) => EnsureOk(cfg, origin, k)
    case ELoad(k, _) => EnsureOk(cfg, origin, k)
    case ELock(k) => EnsureOk(cfg, origin, k)
    case ESecond(k) => EnsureOk(cfg, origin, k)
    case ELoadLocked(k, _) => EnsureOk(cfg, origin, k)
    case EIssue(k, path) => Owned(cfg, origin, k.txID, k.policyID, path)
    case EAttach(_, _) => true
    case CLookup(_, _) => true
    case CIssue(_, policyID, path) => Vetted(cfg, policyID, path)
    case Done(_) => true
  }

  ghost predicate LedgerOk(cfg: Config, s: LedgerState, origin: Origins) {
    && Wf(s) && origin.Keys <= s.seen
    && forall i | 0 <= i < |s.allTxs| :: TxOk(cfg, origin, s.allTxs[i])
  }

  ghost predicate ThreadsOk(cfg: Config, origin: Origins, threads: map<nat, Pc>) {
    forall t <- threads :: PcOk(cfg, origin, threads[t])
  }

  ghost predicate StoreVetted(cfg: Config, store: seq<Receipt>) {
    forall i | 0 <= i < |store| :: Vetted(cfg, store[i].policyID, store[i].path)
  }

  /** The stored receipt rid names the policy and the path of the request that submitted id. */
  predicate OwnReceipt(cfg: Config, origin: Origins, store: seq<Receipt>, id: string, rid: string) {
    && FindByID(store, rid).Some?
    && var r := FindByID(store, rid).value; Owned(cfg, origin, id, r.policyID, r.path)
  }

  ghost predicate MintOk(cfg: Config, origin: Origins, store: seq<Receipt>, minted: map<string, seq<string>>) {
    forall id <- minted :: forall rid <- minted[id] :: OwnReceipt(cfg, origin, store, id, rid)
  }

  ghost predicate Inv(cfg: Config, w: World) {
    && LedgerOk(cfg, w.ledger, w.origin)
    && ThreadsOk(cfg, w.origin, w.threads)
    && StoreVetted(cfg, w.store)
    && MintOk(cfg, w.origin, w.store, w.minted)
  }

  // ----- Retries -----

  /** A retry whose digest matches re-supplies the bytes that were vetted; anything else is refused. */
  lemma RetryIsVetted(cfg: Config, origin: Origins, existing: Transaction, req: SettleRequest, path: Option<Path>)
    requires DigestBinds(cfg) && TxOk(cfg, origin, existing) && (path.Some? ==> path == cfg.extract(Raw(req)))
    ensures PcOk(cfg, origin, OnExisting(cfg, existing, req, existing.id, path))
  {
    if existing.requestDigest == Digest(cfg, req, existing.id) {
      assert Raw(req) == Raw(origin[existing.id]) && req.policyID == existing.policyID;
    }
  }

  /**
   A rejected ID is reported back without its terms, and a request always names a sender, so retrying it
   is answered TX_CONFLICT, even when the request is the very one that was rejected.
   */
  lemma RejectedRetryConflicts(cfg: Config, s: LedgerState, id: string, req: SettleRequest, path: Option<Path>)
    requires Wf(s) && id in s.seen && Lookup(s, id).None? && req.from != ""
    ensures Existing(s, id).Some?
    ensures OnExisting(cfg, Existing(s, id).value, req, id, path) == Done(Failed("TX_CONFLICT"))
  {
  }

  lemma FoundTx(cfg: Config, s: LedgerState, origin: Origins, id: string)
    requires LedgerOk(cfg, s, origin) && Lookup(s, id).Some?
    ensures TxOk(cfg, origin, Lookup(s, id).value) && Lookup(s, id).value.id == id
  {
  }

  // ----- Steps -----

  /** A step that only moves a thread. */
  lemma ThreadMoves(cfg: Config, w: World, r: World, tid: nat, pc: Pc)
    requires Inv(cfg, w) && PcOk(cfg, w.origin, pc)
    requires r.threads == w.threads[tid := pc] && r.ledger == w.ledger && r.origin == w.origin
    requires r.store == w.store && r.minted == w.minted
    ensures Inv(cfg, r)
  {
  }

  lemma LookupOk(cfg: Config, w: World, tid: nat, req: SettleRequest, id: string, replayed: bool)
    requires DigestBinds(cfg) && Inv(cfg, w) && req.from != ""
    ensures Inv(cfg, Goto(w, tid, AfterLookup(cfg, req, id, Lookup(w.ledger, id), replayed)))
  {
    var pc := AfterLookup(cfg, req, id, Lookup(w.ledger, id), replayed);
    LookupPc(cfg, w.ledger, w.origin, req, id, replayed);
    ThreadMoves(cfg, w, Goto(w, tid, pc), tid, pc);
  }

  lemma LookupPc(cfg: Config, s: LedgerState, origin: Origins, req: SettleRequest, id: string, replayed: bool)
    requires DigestBinds(cfg) && LedgerOk(cfg, s, origin) && req.from != ""
    ensures PcOk(cfg, origin, AfterLookup(cfg, req, id, Lookup(s, id), replayed))
  {
    if Lookup(s, id).Some? {
      FoundTx(cfg, s, origin, id);
      RetryIsVetted(cfg, origin, Lookup(s, id).value, req, None);
    }
  }

  lemma ExistingPc(cfg: Config, s: LedgerState, origin: Origins, req: SettleRequest, id: string, path: Path)
    requires DigestBinds(cfg) && LedgerOk(cfg, s, origin) && id in s.seen && PcOk(cfg, origin, SSubmit(req, id, path))
    ensures PcOk(cfg, origin, OnExisting(cfg, Existing(s, id).value, req, id, Some(path)))
  {
    if Lookup(s, id).Some? {
      FoundTx(cfg, s, origin, id);
      RetryIsVetted(cfg, origin, Lookup(s, id).value, req, Some(path));
    } else {
      RejectedRetryConflicts(cfg, s, id, req, Some(path));
    }
  }

  lemma SubmitOk(cfg: Config, w: World, tid: nat, req: SettleRequest, id: string, path: Path)
    requires DigestBinds(cfg) && Inv(cfg, w) && PcOk(cfg, w.origin, SSubmit(req, id, path))
    ensures Inv(cfg, SubmitStep(cfg, w, tid, req, id, path))
  {
    var r := SubmitStep(cfg, w, tid, req, id, path);
    if id in w.ledger.seen {
      ExistingPc(cfg, w.ledger, w.origin, req, id, path);
      ThreadMoves(cfg, w, r, tid, r.threads[tid]);
    } else if SubmitCheck(w.ledger, NewTx(cfg, req, id, path)).Some? {
      ThreadMoves(cfg, w, r, tid, r.threads[tid]);
    } else {
      SubmittedLedger(cfg, w.ledger, w.origin, req, id, path);
      SubmittedThreads(cfg, w.origin, w.threads, tid, req, id, path);
      SubmittedMints(cfg, w.origin, w.store, w.minted, req, id);
    }
  }

  lemma SubmittedLedger(cfg: Config, s: LedgerState, origin: Origins, req: SettleRequest, id: string, path: Path)
    requires LedgerOk(cfg, s, origin) && PcOk(cfg, origin, SSubmit(req, id, path)) && id !in s.seen
    requires SubmitCheck(s, NewTx(cfg, req, id, path)).None?
    ensures LedgerOk(cfg, Submit(s, NewTx(cfg, req, id, path)), origin[id := req])
  {
    var r := Submit(s, NewTx(cfg, req, id, path));
    forall i | 0 <= i < |r.allTxs|
      ensures TxOk(cfg, origin[id := req], r.allTxs[i])
    {
      if i < |s.allTxs| { assert TxOk(cfg, origin, s.allTxs[i]) && s.allTxs[i].id in s.seen; }
    }
  }

  /** What a handler relies on survives the recording of another request. */
  lemma OriginGrows(cfg: Config, origin: Origins, req: SettleRequest, id: string, pc: Pc)
    requires id !in origin && PcOk(cfg, origin, pc)
    ensures PcOk(cfg, origin[id := req], pc)
  {
  }

  lemma SubmittedThreads(cfg: Config, origin: Origins, threads: map<nat, Pc>, tid: nat, req: SettleRequest, id: string,
                         path: Path)
    requires ThreadsOk(cfg, origin, threads) && id !in origin && PcOk(cfg, origin, SSubmit(req, id, path))
    ensures ThreadsOk(cfg, origin[id := req], threads[tid := SRound(req, id, path)])
  {
    forall t <- threads
      ensures PcOk(cfg, origin[id := req], threads[t])
    {
      OriginGrows(cfg, origin, req, id, threads[t]);
    }
  }

  lemma SubmittedMints(cfg: Config, origin: Origins, store: seq<Receipt>, minted: map<string, seq<string>>,
                       req: SettleRequest, id: string)
    requires MintOk(cfg, origin, store, minted) && id !in origin
    ensures MintOk(cfg, origin[id := req], store, minted)
  {
    forall x <- minted, rid <- minted[x]
      ensures OwnReceipt(cfg, origin[id := req], store, x, rid)
    {
      assert OwnReceipt(cfg, origin, store, x, rid);
    }
  }

  /** Rounds, cleanups and attachments change only the status and the receipt of recorded transactions. */
  ghost predicate SameTerms(a: seq<Transaction>, b: seq<Transaction>) {
    |b| == |a| && HistoryGrows(a, b)
  }

  lemma TermsKept(cfg: Config, origin: Origins, a: LedgerState, b: LedgerState)
    requires LedgerOk(cfg, a, origin) && Wf(b) && SameTerms(a.allTxs, b.allTxs) && b.seen == a.seen
    ensures LedgerOk(cfg, b, origin)
  {
    forall i | 0 <= i < |b.allTxs|
      ensures TxOk(cfg, origin, b.allTxs[i])
    {
      assert TxOk(cfg, origin, a.allTxs[i]) && Evolves(a.allTxs[i], b.allTxs[i]);
    }
  }

  lemma CommitTerms(s: LedgerState, id: string)
    requires Wf(s)
    ensures SameTerms(s.allTxs, Commit(s, id).allTxs) && Commit(s, id).seen == s.seen
  {
    if id in s.pending { CommitFiles(s, id); }
  }

  lemma CleanupTerms(s: LedgerState, id: string)
    requires Wf(s)
    ensures SameTerms(s.allTxs, Cleanup(s, id).allTxs) && Cleanup(s, id).seen == s.seen
  {
  }

  lemma RoundTerms(cfg: Config, origin: Origins, s: LedgerState, id: string, majority: bool)
    requires LedgerOk(cfg, s, origin)
    ensures LedgerOk(cfg, RoundLedger(s, id, majority), origin)
  {
    var m := if majority then Commit(s, id) else s;
    if majority {
      CommitTerms(s, id);
      TermsKept(cfg, origin, s, m);
    }
    CleanupTerms(m, id);
    TermsKept(cfg, origin, m, Cleanup(m, id));
  }

  lemma RoundOk(cfg: Config, w: World, tid: nat, req: SettleRequest, id: string, path: Path, majority: bool)
    requires Inv(cfg, w) && PcOk(cfg, w.origin, SRound(req, id, path))
    ensures Inv(cfg, RoundStep(w, tid, req, id, path, majority))
  {
    var r := RoundStep(w, tid, req, id, path, majority);
    RoundTerms(cfg, w.origin, w.ledger, id, majority);
    assert PcOk(cfg, w.origin, r.threads[tid]);
    LedgerMoves(cfg, w, r, tid, r.threads[tid]);
  }

  /** A step that moves a thread and changes the ledger, but no origin and no receipt. */
  lemma LedgerMoves(cfg: Config, w: World, r: World, tid: nat, pc: Pc)
    requires Inv(cfg, w) && PcOk(cfg, w.origin, pc) && LedgerOk(cfg, r.ledger, w.origin)
    requires r.threads == w.threads[tid := pc] && r.origin == w.origin && r.store == w.store && r.minted == w.minted
    ensures Inv(cfg, r)
  {
  }

  lemma AttachTerms(s: LedgerState, id: string, rid: string)
    requires Wf(s)
    ensures SameTerms(s.allTxs, Attach(s, id, rid).allTxs) && Attach(s, id, rid).seen == s.seen
  {
  }

  lemma AttachOk(cfg: Config, w: World, tid: nat, k: Ensure, x: Receipt)
    requires Inv(cfg, w)
    ensures Inv(cfg, AttachStep(w, tid, k, x))
  {
    AttachTerms(w.ledger, k.txID, x.id);
    TermsKept(cfg, w.origin, w.ledger, Attach(w.ledger, k.txID, x.id));
    var r := AttachStep(w, tid, k, x);
    LedgerMoves(cfg, w, r, tid, r.threads[tid]);
  }

  // ----- Receipts -----

  /** A minted receipt names the policy and path it was requested for, and the store accepted it. */
  lemma IssuedNames(c: Crypto, g: Gen, store: seq<Receipt>, q: Request)
    requires q.signer.SigningGroup? ==> q.signer.group.k <= |q.signer.group.members|
    requires IssueOutcome(c, g, store, q).Issued?
    ensures var r := IssueOutcome(c, g, store, q).receipt;
            r.policyID == q.policyID && r.path == q.path && Accepts(store, r)
  {
  }

  lemma AppendedMints(cfg: Config, origin: Origins, store: seq<Receipt>, minted: map<string, seq<string>>, r: Receipt)
    requires MintOk(cfg, origin, store, minted) && Accepts(store, r)
    ensures MintOk(cfg, origin, store + [r], minted) && FindByID(store + [r], r.id) == Some(r)
  {
    Once.AppendKeepsStore(store, r);
    forall x <- minted, rid <- minted[x]
      ensures OwnReceipt(cfg, origin, store + [r], x, rid)
    {
      assert OwnReceipt(cfg, origin, store, x, rid);
    }
  }

  lemma IssueOk(cfg: Config, w: World, tid: nat, k: Ensure, path: Path, ch: Choice)
    requires Inv(cfg, w) && PcOk(cfg, w.origin, EIssue(k, path)) && ChoiceOk(ch)
    ensures Inv(cfg, IssueStep(cfg, w, tid, k, path, ch))
  {
    var q := RequestOf(ch, k.txID, k.policyID, path);
    var r := IssueStep(cfg, w, tid, k, path, ch);
    var out := IssueOutcome(cfg.crypto, w.gen, w.store, q);
    if out.Issued? {
      IssuedNames(cfg.crypto, w.gen, w.store, q);
      SettlementMinted(cfg, w, r, tid, k, out.receipt);
    } else {
      ThreadMoves(cfg, w, r, tid, r.threads[tid]);
    }
  }

  lemma SettlementMinted(cfg: Config, w: World, r: World, tid: nat, k: Ensure, x: Receipt)
    requires Inv(cfg, w) && Owned(cfg, w.origin, k.txID, x.policyID, x.path) && Accepts(w.store, x)
    requires r.ledger == w.ledger && r.origin == w.origin && r.threads == w.threads[tid := EAttach(k, x)]
    requires r.store == w.store + [x] && r.minted == w.minted[k.txID := Minted(w, k.txID) + [x.id]]
    ensures Inv(cfg, r)
  {
    AppendedMints(cfg, w.origin, w.store, w.minted, x);
    assert OwnReceipt(cfg, w.origin, r.store, k.txID, x.id);
  }

  lemma CheckIssueOk(cfg: Config, w: World, tid: nat, id: string, policyID: string, path: Path, ch: Choice)
    requires Inv(cfg, w) && PcOk(cfg, w.origin, CIssue(id, policyID, path)) && ChoiceOk(ch)
    ensures Inv(cfg, CheckIssueStep(cfg, w, tid, id, policyID, path, ch))
  {
    var q := RequestOf(ch, id, policyID, path);
    var r := CheckIssueStep(cfg, w, tid, id, policyID, path, ch);
    var out := IssueOutcome(cfg.crypto, w.gen, w.store, q);
    if out.Issued? {
      IssuedNames(cfg.crypto, w.gen, w.store, q);
      CheckMinted(cfg, w, r, tid, out.receipt);
    } else {
      ThreadMoves(cfg, w, r, tid, r.threads[tid]);
    }
  }

  lemma CheckMinted(cfg: Config, w: World, r: World, tid: nat, x: Receipt)
    requires Inv(cfg, w) && Vetted(cfg, x.policyID, x.path) && Accepts(w.store, x)
    requires r.ledger == w.ledger && r.origin == w.origin && r.threads == w.threads[tid := Done(Checked(x))]
    requires r.store == w.store + [x] && r.minted == w.minted
    ensures Inv(cfg, r)
  {
    AppendedMints(cfg, w.origin, w.store, w.minted, x);
  }

  /** The points that the checks of ensureSettlementReceipt lead to keep the vetted bytes. */
  lemma EnsurePcs(cfg: Config, origin: Origins, s: LedgerState, k: Ensure)
    requires Wf(s) && EnsureOk(cfg, origin, k)
    ensures PcOk(cfg, origin, FirstPc(s, k)) && PcOk(cfg, origin, SecondPc(cfg, s, k))
  {
  }

  lemma FirstOk(cfg: Config, w: World, tid: nat, k: Ensure)
    requires Inv(cfg, w) && EnsureOk(cfg, w.origin, k)
    ensures Inv(cfg, Goto(w, tid, FirstPc(w.ledger, k)))
  {
    EnsurePcs(cfg, w.origin, w.ledger, k);
    ThreadMoves(cfg, w, Goto(w, tid, FirstPc(w.ledger, k)), tid, FirstPc(w.ledger, k));
  }

  lemma SecondOk(cfg: Config, w: World, tid: nat, k: Ensure)
    requires Inv(cfg, w) && EnsureOk(cfg, w.origin, k)
    ensures Inv(cfg, SecondStep(cfg, w, tid, k))
  {
    var pc := SecondPc(cfg, w.ledger, k);
    EnsurePcs(cfg, w.origin, w.ledger, k);
    ThreadMoves(cfg, w, if pc.Done? then Leave(w, tid, pc.response) else Goto(w, tid, pc), tid, pc);
  }

  lemma LoadOk(cfg: Config, w: World, tid: nat, out: Response)
    requires Inv(cfg, w)
    ensures Inv(cfg, Goto(w, tid, Done(out))) && Inv(cfg, Leave(w, tid, out))
  {
    ThreadMoves(cfg, w, Goto(w, tid, Done(out)), tid, Done(out));
    ThreadMoves(cfg, w, Leave(w, tid, out), tid, Done(out));
  }

  lemma EnsureOkStep(cfg: Config, w: World, tid: nat, pc: Pc, ch: Choice)
    requires Inv(cfg, w) && InEnsure(pc) && PcOk(cfg, w.origin, pc) && ChoiceOk(ch)
    ensures Inv(cfg, EnsureStep(cfg, w, tid, pc, ch))
  {
    match pc
    case EIssue(k, path) => IssueOk(cfg, w, tid, k, path, ch);
    case EAttach(k, x) => AttachOk(cfg, w, tid, k, x);
    case ESecond(k) => SecondOk(cfg, w, tid, k);
    case EFirst(k) => FirstOk(cfg, w, tid, k);
    case ELoad(k, rid) => LoadOk(cfg, w, tid, Loaded(w, k, rid, ch.lookupFails));
    case ELoadLocked(k, rid) => LoadOk(cfg, w, tid, Loaded(w, k, rid, ch.lookupFails));
    case ELock(k) =>
      if w.mutex.None? { ThreadMoves(cfg, w, LockStep(w, tid, k), tid, ESecond(k)); }
  }

  lemma SettleOkStep(cfg: Config, w: World, tid: nat, pc: Pc, ch: Choice)
    requires DigestBinds(cfg) && Inv(cfg, w) && InSettle(pc) && PcOk(cfg, w.origin, pc)
    ensures Inv(cfg, SettleStep(cfg, w, tid, pc, ch))
  {
    match pc
    case SLookup(req, id) => LookupOk(cfg, w, tid, req, id, ch.replayed);
    case SSubmit(req, id, path) => SubmitOk(cfg, w, tid, req, id, path);
    case SRound(req, id, path) => RoundOk(cfg, w, tid, req, id, path, ch.majority);
  }

  lemma CheckLookupOk(cfg: Config, w: World, tid: nat, q: CheckRequest, id: string, replayed: bool)
    requires Inv(cfg, w)
    ensures Inv(cfg, Goto(w, tid, CheckLookupPc(cfg, w.ledger, q, id, replayed)))
  {
    var pc := CheckLookupPc(cfg, w.ledger, q, id, replayed);
    CheckPc(cfg, w.ledger, w.origin, q, id, replayed);
    ThreadMoves(cfg, w, Goto(w, tid, pc), tid, pc);
  }

  lemma CheckPc(cfg: Config, s: LedgerState, origin: Origins, q: CheckRequest, id: string, replayed: bool)
    requires Wf(s)
    ensures PcOk(cfg, origin, CheckLookupPc(cfg, s, q, id, replayed))
  {
  }

  lemma ThreadOk(cfg: Config, w: World, tid: nat, ch: Choice)
    requires DigestBinds(cfg) && Inv(cfg, w) && tid in w.threads && ChoiceOk(ch)
    ensures Inv(cfg, ThreadStep(cfg, w, tid, ch))
  {
    var pc := w.threads[tid];
    assert PcOk(cfg, w.origin, pc);
    if InSettle(pc) {
      SettleOkStep(cfg, w, tid, pc, ch);
    } else if InEnsure(pc) {
      EnsureOkStep(cfg, w, tid, pc, ch);
    } else {
      match pc
      case CLookup(q, id) => CheckLookupOk(cfg, w, tid, q, id, ch.replayed);
      case CIssue(id, policyID, path) => CheckIssueOk(cfg, w, tid, id, policyID, path, ch);
      case Done(_) =>
    }
  }

  lemma NextOk(cfg: Config, w: World, l: Label)
    requires DigestBinds(cfg) && Inv(cfg, w)
    ensures Inv(cfg, Next(cfg, w, l))
  {
    if !Enabled(w, l) { return; }
    match l
    case Advance(tid, ch) => ThreadOk(cfg, w, tid, ch);
    case BeginSettlement(tid, req, uuid) => ThreadMoves(cfg, w, Next(cfg, w, l), tid, BeginSettle(req, uuid));
    case BeginCheck(tid, q, uuid) =>
      ThreadMoves(cfg, w, Next(cfg, w, l), tid, CLookup(q, TheID(q.transactionID, uuid)));
    case RotateKey(_) =>
    case Tick(_) =>
  }

  lemma {:induction false} ReachOk(cfg: Config, boot: Boot, labels: seq<Label>)
    requires DigestBinds(cfg) && StoreVetted(cfg, boot.store)
    ensures Inv(cfg, Reach(cfg, boot, labels))
  {
    if labels != [] {
      ReachOk(cfg, boot, labels[..|labels| - 1]);
      NextOk(cfg, Reach(cfg, boot, labels[..|labels| - 1]), labels[|labels| - 1]);
    }
  }

  // ----- What is proved of every run -----

  /** req is the request tx's digest stands for, and tx's policy allows every hop of the path in its raw bytes. */
  predicate CompliantRequest(cfg: Config, tx: Transaction, req: SettleRequest) {
    && tx.requestDigest == Digest(cfg, req, tx.id) && tx.policyID == req.policyID && tx.policyID in cfg.policies
    && cfg.extract(Raw(req)).Some? && cfg.extract(Raw(req)).value.fingerprint == tx.pathFingerprint
    && forall h <- cfg.extract(Raw(req)).value.hops :: h.isd in cfg.policies[tx.policyID].allowedISDs
  }

  ghost predicate HasCompliantRequest(cfg: Config, tx: Transaction) {
    exists req :: CompliantRequest(cfg, tx, req)
  }

  /**
   In every reachable state, every recorded settlement (confirmed or not) was submitted by a request whose
   path its policy allows hop by hop, and every stored receipt names a policy that allows every hop of
   its path, including receipts minted on a retry from re-supplied path bytes.  The store the server
   started on must have been compliant itself.
   */
  lemma NothingNonCompliant(cfg: Config, boot: Boot, labels: seq<Label>)
    requires DigestBinds(cfg) && StoreVetted(cfg, boot.store)
    ensures var w := Reach(cfg, boot, labels);
            && (forall i | 0 <= i < |w.ledger.allTxs| :: HasCompliantRequest(cfg, w.ledger.allTxs[i]))
            && (forall i | 0 <= i < |w.store| :: var r := w.store[i];
                  && r.policyID in cfg.policies
                  && forall h <- r.path.hops :: h.isd in cfg.policies[r.policyID].allowedISDs)
  {
    ReachOk(cfg, boot, labels);
    var w := Reach(cfg, boot, labels);
    forall i | 0 <= i < |w.ledger.allTxs|
      ensures HasCompliantRequest(cfg, w.ledger.allTxs[i])
    {
      var tx := w.ledger.allTxs[i];
      assert TxOk(cfg, w.origin, tx);
      assert CompliantRequest(cfg, tx, w.origin[tx.id]);
    }
  }

  /** The stored receipt r is the settlement receipt of tx and of the request that submitted it. */
  predicate ReceiptOf(cfg: Config, r: Receipt, tx: Transaction, req: SettleRequest) {
    && r.id == tx.receiptID && r.transactionID == tx.id && r.policyID == tx.policyID
    && r.path.fingerprint == tx.pathFingerprint && cfg.extract(Raw(req)) == Some(r.path)
    && tx.requestDigest == Digest(cfg, req, tx.id)
  }

  /**
   In every reachable state, the receipt attached to a transaction is stored and is its own: it names the
   transaction, its policy, and exactly the path extracted from the bytes of the request that submitted it.
   */
  lemma AttachedReceiptIsOwn(cfg: Config, boot: Boot, labels: seq<Label>, id: string)
    requires DigestBinds(cfg) && StoreVetted(cfg, boot.store)
    requires Once.TxReceipt(Reach(cfg, boot, labels).ledger, id) != ""
    ensures var w := Reach(cfg, boot, labels);
            exists r <- w.store ::
              id in w.origin && ReceiptOf(cfg, r, w.ledger.allTxs[w.ledger.confirmed[id]], w.origin[id])
  {
    var w := Reach(cfg, boot, labels);
    var rid := Once.TxReceipt(w.ledger, id);
    var tx := w.ledger.allTxs[w.ledger.confirmed[id]];
    ReachOk(cfg, boot, labels);
    Once.ReachInv(cfg, boot, labels);
    assert Once.Booked(w, id) && Once.ReceiptFor(w.store, rid, id);
    assert rid in w.minted[id] && OwnReceipt(cfg, w.origin, w.store, id, rid);
    assert TxOk(cfg, w.origin, tx);
    FoundIsLogged(w.store, rid, id, 0);
    var r := FindByID(w.store, rid).value;
    assert ReceiptOf(cfg, r, tx, w.origin[id]);
  }

  /** The digest pins the request down: no other amount, party, policy or path bytes share it. */
  lemma CompliantRequestIsUnique(cfg: Config, tx: Transaction, a: SettleRequest, b: SettleRequest)
    requires DigestBinds(cfg) && CompliantRequest(cfg, tx, a) && CompliantRequest(cfg, tx, b)
    ensures a.from == b.from && a.to == b.to && a.amount == b.amount && a.currency == b.currency && Raw(a) == Raw(b)
  {
    assert cfg.rawHash(Raw(a)) == cfg.rawHash(Raw(b));
  }
}
