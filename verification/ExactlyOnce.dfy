/** Exactly-once settlement over every interleaving of the handlers. */
module ExactlyOnce {
  import opened Base
  import opened ReceiptTypes
  import opened LedgerModel
  import opened LedgerRuns
  import opened GeneratorModel
  import opened StoreModel
  import opened Settlement

  /** The receipt attached to a confirmed transaction, or "". */
  function TxReceipt(s: LedgerState, id: string): string
    requires Wf(s)
  {
    if id in s.confirmed then s.allTxs[s.confirmed[id]].receiptID else ""
  }

  predicate Holds(pc: Pc) {
    pc.ESecond? || pc.ELoadLocked? || pc.EIssue? || pc.EAttach?
  }

  /** The threads inside the critical section are exactly the holder of the receipt lock. */
  ghost predicate LockOk(w: World) {
    && (forall t <- w.threads :: Holds(w.threads[t]) <==> w.mutex == Some(t))
    && (w.mutex.Some? ==> w.mutex.value in w.threads)
  }

  /** What a handler may rely on at each point. */
  predicate PcOk(s: LedgerState, store: seq<Receipt>, pc: Pc)
    requires Wf(s)
  {
    match pc
    case ELoad(k, rid) => TxReceipt(s, k.txID) == rid != ""
    case ELoadLocked(k, rid) => TxReceipt(s, k.txID) == rid != ""
    case EIssue(k, _) => k.txID in s.confirmed && TxReceipt(s, k.txID) == ""
    case EAttach(k, r) =>
      k.txID in s.confirmed && TxReceipt(s, k.txID) == "" && r.id != "" && FindByID(store, r.id) == Some(r)
          && r.transactionID == k.txID
    case Done(Settled(id, r)) => TxReceipt(s, id) == r.id != "" && FindByID(store, r.id) == Some(r)
    case _ => true
  }

  /** A receipt that has been appended for id and is about to be attached. */
  function Owed(w: World, id: string): seq<string> {
    if w.mutex.Some? && w.mutex.value in w.threads && w.threads[w.mutex.value].EAttach?
        && w.threads[w.mutex.value].k.txID == id
    then [w.threads[w.mutex.value].receipt.id]
    else []
  }

  /** The settlement receipts ever appended for id: the attached one, the owed one, or none. */
  predicate Booked(w: World, id: string)
    requires Wf(w.ledger)
  {
    Minted(w, id) == if TxReceipt(w.ledger, id) != "" then [TxReceipt(w.ledger, id)] else Owed(w, id)
  }

  predicate ReceiptFor(store: seq<Receipt>, rid: string, id: string) {
    FindByID(store, rid).Some? && FindByID(store, rid).value.transactionID == id
  }

  /** One entry per ID, filed by status, and receipts on confirmed entries only. */
  ghost predicate Tidy(s: LedgerState) {
    Lifecycle(s) && BlankUntilConfirmed(s.allTxs)
  }

  ghost predicate Inv(w: World) {
    && Wf(w.ledger) && Tidy(w.ledger)
    && LockOk(w)
    && (forall t <- w.threads :: PcOk(w.ledger, w.store, w.threads[t]))
    && (forall id :: Booked(w, id))
    && (forall id | TxReceipt(w.ledger, id) != "" :: ReceiptFor(w.store, TxReceipt(w.ledger, id), id))
  }

  // ----- What may change -----

  /** No receipt is attached or lost and confirmed transactions stay confirmed. */
  ghost predicate Quiet(a: LedgerState, b: LedgerState)
    requires Wf(a) && Wf(b)
  {
    forall id :: TxReceipt(b, id) == TxReceipt(a, id) && (id in a.confirmed ==> id in b.confirmed)
  }

  /** Stored receipts stay where they are. */
  ghost predicate StoreKeeps(a: seq<Receipt>, b: seq<Receipt>) {
    forall rid | FindByID(a, rid).Some? :: FindByID(b, rid) == FindByID(a, rid)
  }

  /** Attached receipts stay attached. */
  ghost predicate Forward(a: LedgerState, b: LedgerState)
    requires Wf(a) && Wf(b)
  {
    forall id | TxReceipt(a, id) != "" :: TxReceipt(b, id) == TxReceipt(a, id)
  }

  /** A step that keeps the invariant and loses no attached receipt. */
  ghost predicate Good(w: World, r: World)
    requires Wf(w.ledger)
  {
    Inv(r) && Forward(w.ledger, r.ledger)
  }

  lemma SubmitQuiet(s: LedgerState, tx: Transaction)
    requires Wf(s)
    ensures Quiet(s, SubmitIfAbsent(s, tx))
  {
  }

  lemma CleanupQuiet(s: LedgerState, id: string)
    requires Wf(s)
    ensures Quiet(s, Cleanup(s, id))
  {
  }

  lemma CommitQuiet(s: LedgerState, id: string)
    requires Wf(s) && Tidy(s)
    ensures Quiet(s, Commit(s, id))
  {
    if id in s.pending {
      assert Filed(s.allTxs[s.pending[id]], s.pending.Keys, s.confirmed.Keys);
      forall x
        ensures TxReceipt(Commit(s, id), x) == TxReceipt(s, x) && (x in s.confirmed ==> x in Commit(s, id).confirmed)
      {
        CommitQuietAt(s, id, x);
      }
    }
  }

  lemma CommitQuietAt(s: LedgerState, id: string, x: string)
    requires Wf(s) && id in s.pending && id !in s.confirmed && s.allTxs[s.pending[id]].receiptID == ""
    ensures TxReceipt(Commit(s, id), x) == TxReceipt(s, x)
    ensures x in s.confirmed ==> x in Commit(s, id).confirmed
  {
    if x in s.confirmed { assert s.confirmed[x] != s.pending[id]; }
  }

  lemma AttachEffect(s: LedgerState, id: string, rid: string)
    requires Wf(s) && id in s.confirmed && TxReceipt(s, id) == ""
    ensures AttachCheck(s, id, rid).Attached?
    ensures Attach(s, id, rid).confirmed == s.confirmed
    ensures forall x :: TxReceipt(Attach(s, id, rid), x) == if x == id then rid else TxReceipt(s, x)
  {
  }

  lemma AppendKeepsStore(store: seq<Receipt>, r: Receipt)
    requires Accepts(store, r)
    ensures StoreKeeps(store, store + [r]) && FindByID(store + [r], r.id) == Some(r)
  {
    CheckIsAccepts(store, r);
    forall rid | FindByID(store, rid).Some?
      ensures FindByID(store + [r], rid) == FindByID(store, rid)
    {
      FindAppend(store, r, rid, "", 0);
    }
    FindAppend(store, r, r.id, "", 0);
  }

  /** A handler's assumptions survive a step of another handler that attaches nothing. */
  lemma PcStable(a: LedgerState, b: LedgerState, s: seq<Receipt>, t: seq<Receipt>, pc: Pc)
    requires Wf(a) && Wf(b) && Quiet(a, b) && StoreKeeps(s, t) && PcOk(a, s, pc)
    ensures PcOk(b, t, pc)
  {
  }

  /** Outside the critical section a handler's assumptions survive an attachment too. */
  lemma ForwardPc(a: LedgerState, b: LedgerState, store: seq<Receipt>, pc: Pc)
    requires Wf(a) && Wf(b) && Forward(a, b) && PcOk(a, store, pc) && !Holds(pc)
    ensures PcOk(b, store, pc)
  {
  }

  // ----- One thread moves, attaching nothing -----

  /** Thread tid moves to pc; it takes the lock only when free, and gives it back when it stops holding it. */
  ghost predicate Moves(w: World, r: World, tid: nat, pc: Pc) {
    && r.threads == w.threads[tid := pc]
    && (tid in w.threads || !Holds(pc))
    && (Holds(pc) && !(tid in w.threads && Holds(w.threads[tid])) ==> w.mutex.None?)
    && r.mutex == if Holds(pc) then Some(tid) else if w.mutex == Some(tid) then None else w.mutex
  }

  lemma MoveLock(w: World, r: World, tid: nat, pc: Pc)
    requires LockOk(w) && Moves(w, r, tid, pc)
    ensures LockOk(r)
  {
    forall t <- r.threads
      ensures Holds(r.threads[t]) <==> r.mutex == Some(t)
    {
      if t != tid { assert Holds(w.threads[t]) <==> w.mutex == Some(t); }
    }
  }

  /** Every step that neither appends for a settlement nor attaches. */
  lemma QuietMove(w: World, r: World, tid: nat, pc: Pc)
    requires Inv(w) && Wf(r.ledger) && Tidy(r.ledger) && Moves(w, r, tid, pc)
    requires Quiet(w.ledger, r.ledger) && StoreKeeps(w.store, r.store) && r.minted == w.minted
    requires !pc.EAttach? && (tid in w.threads ==> !w.threads[tid].EAttach?)
    requires PcOk(r.ledger, r.store, pc)
    ensures Good(w, r)
  {
    MoveLock(w, r, tid, pc);
    forall t <- r.threads
      ensures PcOk(r.ledger, r.store, r.threads[t])
    {
      if t != tid {
        assert PcOk(w.ledger, w.store, w.threads[t]);
        PcStable(w.ledger, r.ledger, w.store, r.store, w.threads[t]);
      }
    }
    forall id ensures Booked(r, id) {
      assert Booked(w, id);
      OwedSame(w, r, tid, pc, id);
    }
    forall id | TxReceipt(r.ledger, id) != ""
      ensures ReceiptFor(r.store, TxReceipt(r.ledger, id), id)
    {
      assert ReceiptFor(w.store, TxReceipt(w.ledger, id), id);
    }
  }

  lemma OwedSame(w: World, r: World, tid: nat, pc: Pc, id: string)
    requires LockOk(w) && Moves(w, r, tid, pc) && !pc.EAttach? && (tid in w.threads ==> !w.threads[tid].EAttach?)
    ensures Owed(r, id) == Owed(w, id)
  {
  }

  // ----- Appending and attaching a settlement receipt -----

  lemma IssueKeepsInv(cfg: Config, w: World, tid: nat, k: Ensure, path: Path, ch: Choice)
    requires Inv(w) && tid in w.threads && w.threads[tid] == EIssue(k, path) && ChoiceOk(ch)
    ensures Good(w, IssueStep(cfg, w, tid, k, path, ch))
  {
    var out := IssueOutcome(cfg.crypto, w.gen, w.store, RequestOf(ch, k.txID, k.policyID, path));
    assert PcOk(w.ledger, w.store, EIssue(k, path));
    if out.Issued? {
      AppendKeepsStore(w.store, out.receipt);
      MintedMove(w, IssueStep(cfg, w, tid, k, path, ch), tid, k, out.receipt);
    } else {
      FailedIssue(w, tid, k, path);
    }
  }

  lemma FailedIssue(w: World, tid: nat, k: Ensure, path: Path)
    requires Inv(w) && tid in w.threads && w.threads[tid] == EIssue(k, path)
    ensures Good(w, Leave(w, tid, ReceiptFailure(MINT_FAILED)))
  {
    assert w.mutex == Some(tid);
    ReadMove(w, Leave(w, tid, ReceiptFailure(MINT_FAILED)), tid, Done(ReceiptFailure(MINT_FAILED)));
  }

  /** The lock holder goes from EIssue to EAttach with a freshly stored receipt. */
  lemma MintedMove(w: World, r: World, tid: nat, k: Ensure, x: Receipt)
    requires Inv(w) && tid in w.threads && w.threads[tid].EIssue? && w.threads[tid].k == k
    requires r.ledger == w.ledger && r.mutex == w.mutex && r.threads == w.threads[tid := EAttach(k, x)]
    requires StoreKeeps(w.store, r.store) && FindByID(r.store, x.id) == Some(x) && x.id != ""
             && x.transactionID == k.txID
    requires r.minted == w.minted[k.txID := Minted(w, k.txID) + [x.id]]
    ensures Good(w, r)
  {
    assert PcOk(w.ledger, w.store, w.threads[tid]) && w.mutex == Some(tid);
    MoveLock(w, r, tid, EAttach(k, x));
    forall t <- r.threads
      ensures PcOk(r.ledger, r.store, r.threads[t])
    {
      if t != tid { PcStable(w.ledger, r.ledger, w.store, r.store, w.threads[t]); }
    }
    forall id ensures Booked(r, id) {
      assert Booked(w, id);
      MintedBooks(w, r, tid, k, x, id);
    }
    forall id | TxReceipt(r.ledger, id) != ""
      ensures ReceiptFor(r.store, TxReceipt(r.ledger, id), id)
    {
      assert ReceiptFor(w.store, TxReceipt(w.ledger, id), id);
    }
  }

  lemma MintedBooks(w: World, r: World, tid: nat, k: Ensure, x: Receipt, id: string)
    requires Wf(w.ledger) && Booked(w, id) && tid in w.threads && w.threads[tid].EIssue? && w.mutex == Some(tid)
    requires TxReceipt(w.ledger, k.txID) == ""
    requires r.ledger == w.ledger && r.mutex == w.mutex && r.threads == w.threads[tid := EAttach(k, x)]
    requires r.minted == w.minted[k.txID := Minted(w, k.txID) + [x.id]]
    ensures Booked(r, id)
  {
  }

  /** Attaching after a successful append never fails, and it settles the debt. */
  lemma AttachKeepsInv(w: World, tid: nat, k: Ensure, x: Receipt)
    requires Inv(w) && tid in w.threads && w.threads[tid] == EAttach(k, x)
    ensures AttachCheck(w.ledger, k.txID, x.id).Attached?
    ensures Good(w, AttachStep(w, tid, k, x))
  {
    assert PcOk(w.ledger, w.store, EAttach(k, x)) && w.mutex == Some(tid);
    AttachEffect(w.ledger, k.txID, x.id);
    AttachLifecycle(w.ledger, k.txID, x.id);
    AttachKeepsBlank(w.ledger, k.txID, x.id);
    AttachedMove(w, AttachStep(w, tid, k, x), tid, k, x);
  }

  ghost predicate Attaches(w: World, r: World, tid: nat, k: Ensure, x: Receipt)
    requires Wf(w.ledger)
  {
    && tid in w.threads && w.threads[tid] == EAttach(k, x) && w.mutex == Some(tid)
    && Wf(r.ledger) && r.ledger.confirmed == w.ledger.confirmed
    && (forall id :: TxReceipt(r.ledger, id) == if id == k.txID then x.id else TxReceipt(w.ledger, id))
    && r.store == w.store && r.minted == w.minted && r.mutex == None
       && r.threads == w.threads[tid := Done(Settled(k.txID, x))]
  }

  lemma AttachedPcs(w: World, r: World, tid: nat, k: Ensure, x: Receipt)
    requires Inv(w) && Attaches(w, r, tid, k, x)
    ensures Forward(w.ledger, r.ledger)
    ensures forall t <- r.threads :: PcOk(r.ledger, r.store, r.threads[t])
  {
    assert PcOk(w.ledger, w.store, EAttach(k, x));
    forall t <- r.threads
      ensures PcOk(r.ledger, r.store, r.threads[t])
    {
      if t != tid {
        assert PcOk(w.ledger, w.store, w.threads[t]) && !Holds(w.threads[t]);
        ForwardPc(w.ledger, r.ledger, w.store, w.threads[t]);
      }
    }
  }

  lemma AttachedBooks(w: World, r: World, tid: nat, k: Ensure, x: Receipt, id: string)
    requires Inv(w) && Attaches(w, r, tid, k, x)
    ensures Booked(r, id) && (TxReceipt(r.ledger, id) != "" ==> ReceiptFor(r.store, TxReceipt(r.ledger, id), id))
  {
    assert PcOk(w.ledger, w.store, EAttach(k, x)) && Booked(w, id);
    if id != k.txID && TxReceipt(w.ledger, id) != "" { assert ReceiptFor(w.store, TxReceipt(w.ledger, id), id); }
  }

  lemma AttachedMove(w: World, r: World, tid: nat, k: Ensure, x: Receipt)
    requires Inv(w) && Attaches(w, r, tid, k, x) && Tidy(r.ledger)
    ensures Good(w, r)
  {
    MoveLock(w, r, tid, Done(Settled(k.txID, x)));
    AttachedPcs(w, r, tid, k, x);
    forall id
      ensures Booked(r, id) && (TxReceipt(r.ledger, id) != "" ==> ReceiptFor(r.store, TxReceipt(r.ledger, id), id))
    {
      AttachedBooks(w, r, tid, k, x, id);
    }
  }

  // ----- The other steps -----

  /** A handler that only reads moves to a point it may stand at. */
  lemma ReadMove(w: World, r: World, tid: nat, pc: Pc)
    requires Inv(w) && tid in w.threads && !w.threads[tid].EAttach? && !pc.EAttach?
    requires r.ledger == w.ledger && r.store == w.store && r.minted == w.minted && Moves(w, r, tid, pc)
    requires PcOk(w.ledger, w.store, pc)
    ensures Good(w, r)
  {
    QuietMove(w, r, tid, pc);
  }

  lemma SubmitKeepsInv(cfg: Config, w: World, tid: nat, req: SettleRequest, id: string, path: Path)
    requires Inv(w) && tid in w.threads && w.threads[tid] == SSubmit(req, id, path)
    ensures Good(w, SubmitStep(cfg, w, tid, req, id, path))
  {
    var tx := NewTx(cfg, req, id, path);
    assert w.mutex != Some(tid);
    if id in w.ledger.seen {
      ReadPcs(cfg, Existing(w.ledger, id).value, req, id, Some(path));
      var pc := OnExisting(cfg, Existing(w.ledger, id).value, req, id, Some(path));
      ReadMove(w, Goto(w, tid, pc), tid, pc);
    } else if SubmitCheck(w.ledger, tx).Some? {
      ReadMove(w, SubmitStep(cfg, w, tid, req, id, path), tid, Done(Failed("INVALID_REQUEST")));
    } else {
      SubmittedMove(w, SubmitStep(cfg, w, tid, req, id, path), tid, tx, SRound(req, id, path));
    }
  }

  /** Where the lookup of an existing settlement leads, nothing is assumed and no lock is held. */
  lemma ReadPcs(cfg: Config, existing: Transaction, req: SettleRequest, id: string, path: Option<Path>)
    ensures var pc := OnExisting(cfg, existing, req, id, path);
            !Holds(pc) && !pc.EAttach? && forall s, store | Wf(s) :: PcOk(s, store, pc)
  {
  }

  lemma LookupPcs(cfg: Config, req: SettleRequest, id: string, found: Option<Transaction>, replayed: bool)
    ensures var pc := AfterLookup(cfg, req, id, found, replayed);
            !Holds(pc) && !pc.EAttach? && forall s, store | Wf(s) :: PcOk(s, store, pc)
  {
    if found.Some? { ReadPcs(cfg, found.value, req, id, None); }
  }

  lemma SubmittedMove(w: World, r: World, tid: nat, tx: Transaction, pc: Pc)
    requires Inv(w) && tid in w.threads && w.threads[tid].SSubmit? && pc.SRound?
    requires tx.id !in w.ledger.seen && tx.receiptID == ""
    requires r.ledger == SubmitIfAbsent(w.ledger, tx) && r.store == w.store && r.minted == w.minted
             && Moves(w, r, tid, pc)
    ensures Good(w, r)
  {
    SubmitLifecycle(w.ledger, tx);
    SubmitKeepsBlank(w.ledger, tx);
    SubmitQuiet(w.ledger, tx);
    QuietMove(w, r, tid, pc);
  }

  lemma CommitTidy(s: LedgerState, id: string)
    requires Wf(s) && Tidy(s)
    ensures Tidy(Commit(s, id))
  {
    CommitKeepsBlank(s, id);
    if id in s.pending { CommitLifecycle(s, id); }
  }

  lemma CleanupTidy(s: LedgerState, id: string)
    requires Wf(s) && Tidy(s)
    ensures Tidy(Cleanup(s, id))
  {
    CleanupKeepsBlank(s, id);
    CleanupLifecycle(s, id);
  }

  lemma RoundLedgerOk(s: LedgerState, id: string, majority: bool)
    requires Wf(s) && Tidy(s)
    ensures Quiet(s, RoundLedger(s, id, majority)) && Tidy(RoundLedger(s, id, majority))
  {
    if majority {
      CommitQuiet(s, id);
      CommitTidy(s, id);
      if CommitCheck(s, id) != Committed {
        CleanupQuiet(Commit(s, id), id);
        CleanupTidy(Commit(s, id), id);
        QuietTransitive(s, Commit(s, id), Cleanup(Commit(s, id), id));
      }
    } else {
      CleanupQuiet(s, id);
      CleanupTidy(s, id);
    }
  }

  lemma QuietTransitive(a: LedgerState, b: LedgerState, c: LedgerState)
    requires Wf(a) && Wf(b) && Wf(c) && Quiet(a, b) && Quiet(b, c)
    ensures Quiet(a, c)
  {
  }

  lemma RoundKeepsInv(w: World, tid: nat, req: SettleRequest, id: string, path: Path, majority: bool)
    requires Inv(w) && tid in w.threads && w.threads[tid] == SRound(req, id, path)
    ensures Good(w, RoundStep(w, tid, req, id, path, majority))
  {
    var pc := if RoundCommits(w.ledger, id, majority) then EFirst(Ensure(id, req.policyID, Raw(req), Some(path)))
              else Done(ConsensusRejected);
    RoundLedgerOk(w.ledger, id, majority);
    LedgerMove(w, tid, RoundLedger(w.ledger, id, majority), pc);
    assert RoundStep(w, tid, req, id, path, majority)
        == Goto(w.(ledger := RoundLedger(w.ledger, id, majority)), tid, pc);
  }

  /** The end of a round: the ledger moves on quietly, and the handler goes on or answers. */
  lemma LedgerMove(w: World, tid: nat, s: LedgerState, pc: Pc)
    requires Inv(w) && tid in w.threads && w.threads[tid].SRound? && Wf(s) && Tidy(s) && Quiet(w.ledger, s)
    requires pc.EFirst? || pc == Done(ConsensusRejected)
    ensures Good(w, Goto(w.(ledger := s), tid, pc))
  {
    assert w.mutex != Some(tid);
    QuietMove(w, Goto(w.(ledger := s), tid, pc), tid, pc);
  }

  /** What the two rounds of checks in ensureSettlementReceipt establish. */
  lemma ReadablePcs(cfg: Config, s: LedgerState, store: seq<Receipt>, k: Ensure)
    requires Wf(s)
    ensures PcOk(s, store, FirstPc(s, k)) && !Holds(FirstPc(s, k))
    ensures PcOk(s, store, SecondPc(cfg, s, k)) && !SecondPc(cfg, s, k).EAttach?
    ensures SecondPc(cfg, s, k).Done? <==> !Holds(SecondPc(cfg, s, k))
  {
  }

  lemma FirstKeepsInv(cfg: Config, w: World, tid: nat, k: Ensure)
    requires Inv(w) && tid in w.threads && w.threads[tid] == EFirst(k)
    ensures Good(w, Goto(w, tid, FirstPc(w.ledger, k)))
  {
    assert w.mutex != Some(tid);
    ReadablePcs(cfg, w.ledger, w.store, k);
    ReadMove(w, Goto(w, tid, FirstPc(w.ledger, k)), tid, FirstPc(w.ledger, k));
  }

  lemma LockKeepsInv(w: World, tid: nat, k: Ensure)
    requires Inv(w) && tid in w.threads && w.threads[tid] == ELock(k)
    ensures Good(w, LockStep(w, tid, k))
  {
    if w.mutex.None? { ReadMove(w, LockStep(w, tid, k), tid, ESecond(k)); }
  }

  lemma SecondKeepsInv(cfg: Config, w: World, tid: nat, k: Ensure)
    requires Inv(w) && tid in w.threads && w.threads[tid] == ESecond(k)
    ensures Good(w, SecondStep(cfg, w, tid, k))
  {
    assert w.mutex == Some(tid);
    ReadablePcs(cfg, w.ledger, w.store, k);
    ReadMove(w, SecondStep(cfg, w, tid, k), tid, SecondPc(cfg, w.ledger, k));
  }

  lemma LoadedOk(w: World, k: Ensure, rid: string, lookupFails: bool)
    requires Inv(w) && TxReceipt(w.ledger, k.txID) == rid != ""
    ensures PcOk(w.ledger, w.store, Done(Loaded(w, k, rid, lookupFails)))
  {
    assert ReceiptFor(w.store, TxReceipt(w.ledger, k.txID), k.txID);
    FoundIsLogged(w.store, rid, "", 0);
  }

  lemma LoadKeepsInv(w: World, tid: nat, lookupFails: bool)
    requires Inv(w) && tid in w.threads && (w.threads[tid].ELoad? || w.threads[tid].ELoadLocked?)
    ensures var pc := w.threads[tid];
            var out := Loaded(w, pc.k, pc.rid, lookupFails);
            Good(w, if pc.ELoad? then Goto(w, tid, Done(out)) else Leave(w, tid, out))
  {
    var pc := w.threads[tid];
    var out := Loaded(w, pc.k, pc.rid, lookupFails);
    assert Holds(pc) <==> w.mutex == Some(tid);
    assert PcOk(w.ledger, w.store, pc);
    LoadedOk(w, pc.k, pc.rid, lookupFails);
    ReadMove(w, if pc.ELoad? then Goto(w, tid, Done(out)) else Leave(w, tid, out), tid, Done(out));
  }

  lemma LookupKeepsInv(cfg: Config, w: World, tid: nat, req: SettleRequest, id: string, replayed: bool)
    requires Inv(w) && tid in w.threads && w.threads[tid] == SLookup(req, id)
    ensures Good(w, Goto(w, tid, AfterLookup(cfg, req, id, Lookup(w.ledger, id), replayed)))
  {
    assert w.mutex != Some(tid);
    var pc := AfterLookup(cfg, req, id, Lookup(w.ledger, id), replayed);
    LookupPcs(cfg, req, id, Lookup(w.ledger, id), replayed);
    ReadMove(w, Goto(w, tid, pc), tid, pc);
  }

  lemma CheckLookupPcs(cfg: Config, s: LedgerState, store: seq<Receipt>, q: CheckRequest, id: string, replayed: bool)
    requires Wf(s)
    ensures var pc := CheckLookupPc(cfg, s, q, id, replayed); !Holds(pc) && !pc.EAttach? && PcOk(s, store, pc)
  {
  }

  lemma CheckLookupKeepsInv(cfg: Config, w: World, tid: nat, q: CheckRequest, id: string, replayed: bool)
    requires Inv(w) && tid in w.threads && w.threads[tid] == CLookup(q, id)
    ensures Good(w, Goto(w, tid, CheckLookupPc(cfg, w.ledger, q, id, replayed)))
  {
    var pc := CheckLookupPc(cfg, w.ledger, q, id, replayed);
    assert w.mutex != Some(tid);
    CheckLookupPcs(cfg, w.ledger, w.store, q, id, replayed);
    ReadMove(w, Goto(w, tid, pc), tid, pc);
  }

  lemma CheckIssueKeepsInv(cfg: Config, w: World, tid: nat, id: string, policyID: string, path: Path, ch: Choice)
    requires Inv(w) && tid in w.threads && w.threads[tid] == CIssue(id, policyID, path) && ChoiceOk(ch)
    ensures Good(w, CheckIssueStep(cfg, w, tid, id, policyID, path, ch))
  {
    var r := CheckIssueStep(cfg, w, tid, id, policyID, path, ch);
    assert w.mutex != Some(tid);
    var out := IssueOutcome(cfg.crypto, w.gen, w.store, RequestOf(ch, id, policyID, path));
    if out.Issued? { AppendKeepsStore(w.store, out.receipt); }
    QuietMove(w, r, tid, r.threads[tid]);
  }

  lemma SettleKeepsInv(cfg: Config, w: World, tid: nat, ch: Choice)
    requires Inv(w) && tid in w.threads && InSettle(w.threads[tid])
    ensures Good(w, SettleStep(cfg, w, tid, w.threads[tid], ch))
  {
    match w.threads[tid]
    case SLookup(req, id) => LookupKeepsInv(cfg, w, tid, req, id, ch.replayed);
    case SSubmit(req, id, path) => SubmitKeepsInv(cfg, w, tid, req, id, path);
    case SRound(req, id, path) => RoundKeepsInv(w, tid, req, id, path, ch.majority);
  }

  lemma EnsureKeepsInv(cfg: Config, w: World, tid: nat, ch: Choice)
    requires Inv(w) && tid in w.threads && InEnsure(w.threads[tid]) && ChoiceOk(ch)
    ensures Good(w, EnsureStep(cfg, w, tid, w.threads[tid], ch))
  {
    match w.threads[tid]
    case EFirst(k) => FirstKeepsInv(cfg, w, tid, k);
    case ELoad(_, _) => LoadKeepsInv(w, tid, ch.lookupFails);
    case ELock(k) => LockKeepsInv(w, tid, k);
    case ESecond(k) => SecondKeepsInv(cfg, w, tid, k);
    case ELoadLocked(_, _) => LoadKeepsInv(w, tid, ch.lookupFails);
    case EIssue(k, path) => IssueKeepsInv(cfg, w, tid, k, path, ch);
    case EAttach(k, x) => AttachKeepsInv(w, tid, k, x);
  }

  lemma ThreadKeepsInv(cfg: Config, w: World, tid: nat, ch: Choice)
    requires Inv(w) && tid in w.threads && ChoiceOk(ch)
    ensures Good(w, ThreadStep(cfg, w, tid, ch))
  {
    var pc := w.threads[tid];
    if InSettle(pc) {
      SettleKeepsInv(cfg, w, tid, ch);
    } else if InEnsure(pc) {
      EnsureKeepsInv(cfg, w, tid, ch);
    } else {
      match pc
      case CLookup(q, id) => CheckLookupKeepsInv(cfg, w, tid, q, id, ch.replayed);
      case CIssue(id, policyID, path) => CheckIssueKeepsInv(cfg, w, tid, id, policyID, path, ch);
      case Done(_) =>
    }
  }

  lemma NextKeepsInv(cfg: Config, w: World, l: Label)
    requires Inv(w)
    ensures Good(w, Next(cfg, w, l))
  {
    if !Enabled(w, l) { return; }
    var r := Next(cfg, w, l);
    match l
    case Advance(tid, ch) => ThreadKeepsInv(cfg, w, tid, ch);
    case BeginSettlement(tid, req, uuid) => BeginKeepsInv(w, r, tid, BeginSettle(req, uuid));
    case BeginCheck(tid, q, uuid) => BeginKeepsInv(w, r, tid, CLookup(q, TheID(q.transactionID, uuid)));
    case RotateKey(_) => SameBooks(w, r);
    case Tick(_) => SameBooks(w, r);
  }

  /** A new handler holds no lock and relies on nothing. */
  lemma BeginKeepsInv(w: World, r: World, tid: nat, pc: Pc)
    requires Inv(w) && tid !in w.threads && (pc.SLookup? || pc.CLookup? || (pc.Done? && pc.response.Failed?))
    requires r.threads == w.threads[tid := pc] && r.mutex == w.mutex
    requires r.ledger == w.ledger && r.store == w.store && r.minted == w.minted
    ensures Good(w, r)
  {
    QuietMove(w, r, tid, pc);
  }

  /** Key rotation and round counting touch nothing the invariant speaks of. */
  lemma SameBooks(w: World, r: World)
    requires Inv(w)
    requires r == w.(gen := r.gen, ledger := w.ledger.(currentRound := r.ledger.currentRound))
    ensures Good(w, r)
  {
    SameTxs(w.ledger, r.ledger);
    forall t <- r.threads
      ensures PcOk(r.ledger, r.store, r.threads[t])
    {
      assert PcOk(w.ledger, w.store, w.threads[t]);
      PcStable(w.ledger, r.ledger, w.store, r.store, w.threads[t]);
    }
    forall id ensures Booked(r, id) { assert Booked(w, id); }
    forall id | TxReceipt(r.ledger, id) != ""
      ensures ReceiptFor(r.store, TxReceipt(r.ledger, id), id)
    {
      assert TxReceipt(w.ledger, id) == TxReceipt(r.ledger, id);
    }
  }

  lemma SameTxs(a: LedgerState, b: LedgerState)
    requires Wf(a) && Tidy(a) && b == a.(currentRound := b.currentRound)
    ensures Wf(b) && Tidy(b) && Quiet(a, b)
  {
  }

  lemma {:induction false} ReachInv(cfg: Config, boot: Boot, labels: seq<Label>)
    ensures Inv(Reach(cfg, boot, labels))
  {
    if labels != [] {
      ReachInv(cfg, boot, labels[..|labels| - 1]);
      NextKeepsInv(cfg, Reach(cfg, boot, labels[..|labels| - 1]), labels[|labels| - 1]);
    }
  }

  // ----- Exactly-once settlement -----

  /**
   In every reachable state: an ID has at most one history entry, so it is debited at most once; at most
   one settlement receipt was ever appended for it, and if one is attached it is that one; a handler
   about to attach its receipt will succeed; and every handler that reported a settlement of an ID
   reported the receipt the ledger holds for it.
   */
  lemma SettlesExactlyOnce(cfg: Config, boot: Boot, labels: seq<Label>)
    ensures var w := Reach(cfg, boot, labels);
            && UniqueIds(w.ledger.allTxs)
            && (forall id ::
                  && |Minted(w, id)| <= 1
                  && (TxReceipt(w.ledger, id) != "" ==> Minted(w, id) == [TxReceipt(w.ledger, id)]))
            && (forall t <- w.threads :: w.threads[t].EAttach? ==>
                  AttachCheck(w.ledger, w.threads[t].k.txID, w.threads[t].receipt.id).Attached?)
            && (forall t <- w.threads :: w.threads[t].Done? && w.threads[t].response.Settled? ==>
                  Reported(w, w.threads[t].response))
  {
    var w := Reach(cfg, boot, labels);
    ReachInv(cfg, boot, labels);
    forall id { BookedOnce(w, id); }
    forall t <- w.threads { ReportedRight(w, t); }
  }

  lemma BookedOnce(w: World, id: string)
    requires Inv(w)
    ensures |Minted(w, id)| <= 1 && (TxReceipt(w.ledger, id) != "" ==> Minted(w, id) == [TxReceipt(w.ledger, id)])
  {
    assert Booked(w, id);
  }

  lemma ReportedRight(w: World, t: nat)
    requires Inv(w) && t in w.threads
    ensures w.threads[t].EAttach? ==> AttachCheck(w.ledger, w.threads[t].k.txID, w.threads[t].receipt.id).Attached?
    ensures w.threads[t].Done? && w.threads[t].response.Settled? ==> Reported(w, w.threads[t].response)
  {
    assert PcOk(w.ledger, w.store, w.threads[t]);
    if w.threads[t].EAttach? { AttachEffect(w.ledger, w.threads[t].k.txID, w.threads[t].receipt.id); }
  }

  /** A reported settlement names the attached, stored receipt of a confirmed transaction. */
  ghost predicate Reported(w: World, r: Response)
    requires Wf(w.ledger) && r.Settled?
  {
    && r.txID in w.ledger.confirmed && TxReceipt(w.ledger, r.txID) == r.receipt.id
    && FindByID(w.store, r.receipt.id) == Some(r.receipt)
  }

  /** An attached receipt stays attached: any continuation of a run reports the same receipt for the ID. */
  lemma {:induction false} AttachedForever(cfg: Config, boot: Boot, labels: seq<Label>, n: nat, id: string)
    requires n <= |labels| && TxReceipt(Reach(cfg, boot, labels[..n]).ledger, id) != ""
    ensures TxReceipt(Reach(cfg, boot, labels).ledger, id) == TxReceipt(Reach(cfg, boot, labels[..n]).ledger, id)
    decreases |labels| - n
  {
    if n < |labels| {
      var w := Reach(cfg, boot, labels[..n]);
      assert labels[..n + 1][..n] == labels[..n];
      ReachInv(cfg, boot, labels[..n]);
      NextKeepsInv(cfg, w, labels[n]);
      AttachedForever(cfg, boot, labels, n + 1, id);
    } else {
      assert labels[..n] == labels;
    }
  }
}
