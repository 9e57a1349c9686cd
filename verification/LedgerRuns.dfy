/**
 Properties of the ledger over every run.  A run is any sequence of atomic ledger operations, so it
 covers every interleaving of any number of engines and handlers that share one ledger.
 */
module LedgerRuns {
  import opened Base
  import opened LedgerModel

  datatype Op =
    | OpSubmit(tx: Transaction)
    | OpSubmitIfAbsent(tx: Transaction)
    | OpCleanup(id: string)
    | OpPropose(proposer: string)
    | OpCommit(id: string)
    | OpAttach(id: string, rid: string)

  function Step(s: LedgerState, op: Op): (r: LedgerState)
    requires Wf(s)
    ensures Wf(r)
  {
    match op
    case OpSubmit(tx) => Submit(s, tx)
    case OpSubmitIfAbsent(tx) => SubmitIfAbsent(s, tx)
    case OpCleanup(id) => Cleanup(s, id)
    case OpPropose(v) => Propose(s, v)
    case OpCommit(id) => Commit(s, id)
    case OpAttach(id, rid) => Attach(s, id, rid)
  }

  function Run(s: LedgerState, ops: seq<Op>): (r: LedgerState)
    requires Wf(s)
    ensures Wf(r)
    decreases |ops|
  {
    if ops == [] then s else Step(Run(s, ops[..|ops| - 1]), ops[|ops| - 1])
  }

  // ----- Reconciliation: balances are the history, replayed -----

  /** What one transaction means for validator v in currency c: incoming minus outgoing, once confirmed. */
  function Effect(tx: Transaction, v: string, c: string): int {
    if tx.status != Confirmed || tx.currency != c then 0
    else (if tx.to == v then tx.amount else 0) - (if tx.from == v then tx.amount else 0)
  }

  /** Confirmed incoming minus confirmed outgoing amounts over a history. */
  function Net(txs: seq<Transaction>, v: string, c: string): int {
    if txs == [] then 0 else Net(txs[..|txs| - 1], v, c) + Effect(txs[|txs| - 1], v, c)
  }

  lemma {:induction false} NetUpdate(txs: seq<Transaction>, i: nat, tx: Transaction, v: string, c: string)
    requires i < |txs|
    ensures Net(txs[i := tx], v, c) == Net(txs, v, c) - Effect(txs[i], v, c) + Effect(tx, v, c)
  {
    var n := |txs| - 1;
    if i == n {
      assert txs[i := tx][..n] == txs[..n];
    } else {
      assert txs[i := tx][..n] == txs[..n][i := tx];
      NetUpdate(txs[..n], i, tx, v, c);
    }
  }

  lemma NetAppend(txs: seq<Transaction>, tx: Transaction, v: string, c: string)
    ensures Net(txs + [tx], v, c) == Net(txs, v, c) + Effect(tx, v, c)
  {
    assert (txs + [tx])[..|txs|] == txs;
  }

  /** A transfer moves a balance by exactly the effect of the confirmed transaction, up to wrap-around. */
  lemma TransferEffect(vs: map<string, Validator>, tx: Transaction, v: string, c: string)
    requires KnownParties(vs, tx)
    ensures Balance(Transfer(vs, tx), v, c) == Wrap64(Balance(vs, v, c) + Effect(tx.(status := Confirmed), v, c))
  {
    if c == tx.currency && v == tx.to {
      WrapAdd(Balance(vs, v, c) - tx.amount, tx.amount);
    }
  }

  /** Only a successful commit touches balances or the confirmed history. */
  lemma StepKeepsBalance(s: LedgerState, op: Op, v: string, c: string)
    requires Wf(s)
    requires !(op.OpCommit? && CommitCheck(s, op.id) == Committed)
    ensures Balance(Step(s, op).validators, v, c) == Balance(s.validators, v, c)
    ensures Net(Step(s, op).allTxs, v, c) == Net(s.allTxs, v, c)
  {
    match op
    case OpSubmit(tx) => SubmitReconciles(s, tx, v, c);
    case OpSubmitIfAbsent(tx) => SubmitReconciles(s, tx, v, c);
    case OpCleanup(id) => CleanupReconciles(s, id, v, c);
    case OpPropose(_) =>
    case OpCommit(id) => RefusedCommitReconciles(s, id, v, c);
    case OpAttach(id, rid) => AttachReconciles(s, id, rid, v, c);
  }

  lemma CleanupReconciles(s: LedgerState, id: string, v: string, c: string)
    requires Wf(s)
    ensures Balance(Cleanup(s, id).validators, v, c) == Balance(s.validators, v, c)
    ensures Net(Cleanup(s, id).allTxs, v, c) == Net(s.allTxs, v, c)
  {
    if id in s.pending {
      NetUpdate(s.allTxs, s.pending[id], s.allTxs[s.pending[id]].(status := Rejected), v, c);
    }
  }

  lemma RefusedCommitReconciles(s: LedgerState, id: string, v: string, c: string)
    requires Wf(s) && CommitCheck(s, id) != Committed
    ensures Commit(s, id).validators == s.validators
    ensures Net(Commit(s, id).allTxs, v, c) == Net(s.allTxs, v, c)
  {
    if id in s.pending {
      NetUpdate(s.allTxs, s.pending[id], s.allTxs[s.pending[id]].(status := Rejected), v, c);
    }
  }

  lemma AttachReconciles(s: LedgerState, id: string, rid: string, v: string, c: string)
    requires Wf(s)
    ensures Attach(s, id, rid).validators == s.validators
    ensures Net(Attach(s, id, rid).allTxs, v, c) == Net(s.allTxs, v, c)
  {
    if id in s.confirmed {
      NetUpdate(s.allTxs, s.confirmed[id], s.allTxs[s.confirmed[id]].(receiptID := rid), v, c);
    }
  }

  /** A successful commit is the one step that adds its effect to the confirmed history. */
  lemma CommitNet(s: LedgerState, id: string, v: string, c: string)
    requires Wf(s) && CommitCheck(s, id) == Committed
    ensures Net(Commit(s, id).allTxs, v, c)
         == Net(s.allTxs, v, c) + Effect(s.allTxs[s.pending[id]].(status := Confirmed), v, c)
  {
    var k := s.pending[id];
    NetUpdate(s.allTxs, k, s.allTxs[k].(status := Confirmed), v, c);
  }

  /** The balance of v in c changed from s to r exactly as the confirmed history did. */
  predicate Tracks(s: LedgerState, r: LedgerState, v: string, c: string) {
    Balance(r.validators, v, c) == Wrap64(Balance(s.validators, v, c) + Net(r.allTxs, v, c) - Net(s.allTxs, v, c))
  }

  /** One step changes a balance exactly as it changes the confirmed history. */
  lemma StepReconciles(s: LedgerState, op: Op, r: LedgerState, v: string, c: string)
    requires Wf(s) && r == Step(s, op)
    ensures Tracks(s, r, v, c)
  {
    if op.OpCommit? && CommitCheck(s, op.id) == Committed {
      CommitReconciles(s, op.id, r, v, c);
    } else {
      StepKeepsBalance(s, op, v, c);
      Unmoved(s, r, v, c);
    }
  }

  lemma Unmoved(s: LedgerState, r: LedgerState, v: string, c: string)
    requires Balance(r.validators, v, c) == Balance(s.validators, v, c) && Net(r.allTxs, v, c) == Net(s.allTxs, v, c)
    ensures Tracks(s, r, v, c)
  {
  }

  lemma CommitReconciles(s: LedgerState, id: string, r: LedgerState, v: string, c: string)
    requires Wf(s) && CommitCheck(s, id) == Committed && r == Commit(s, id)
    ensures Tracks(s, r, v, c)
  {
    var tx := s.allTxs[s.pending[id]];
    CommitNet(s, id, v, c);
    TransferEffect(s.validators, tx, v, c);
    assert r.validators == Transfer(s.validators, tx);
  }

  lemma SubmitReconciles(s: LedgerState, tx: Transaction, v: string, c: string)
    requires Wf(s)
    ensures Balance(Submit(s, tx).validators, v, c) == Balance(s.validators, v, c)
    ensures Net(Submit(s, tx).allTxs, v, c) == Net(s.allTxs, v, c)
  {
    if SubmitCheck(s, tx).None? {
      NetAppend(s.allTxs, Submit(s, tx).allTxs[|s.allTxs|], v, c);
    }
  }

  /** Balance = initial + in - out, modulo 2^64. */
  predicate Reconciled(vs: map<string, Validator>, s: LedgerState, v: string, c: string) {
    Balance(s.validators, v, c) == Wrap64(Balance(vs, v, c) + Net(s.allTxs, v, c))
  }

  lemma StepKeepsReconciled(vs: map<string, Validator>, s: LedgerState, op: Op, v: string, c: string)
    requires Wf(s) && Reconciled(vs, s, v, c)
    ensures Reconciled(vs, Step(s, op), v, c)
  {
    var r := Step(s, op);
    StepReconciles(s, op, r, v, c);
    ReconciledAdvances(vs, s, r, v, c);
  }

  lemma ReconciledAdvances(vs: map<string, Validator>, s: LedgerState, r: LedgerState, v: string, c: string)
    requires Reconciled(vs, s, v, c)
    requires Tracks(s, r, v, c)
    ensures Reconciled(vs, r, v, c)
  {
    WrapChain(Balance(vs, v, c), Net(s.allTxs, v, c), Net(r.allTxs, v, c),
              Balance(s.validators, v, c), Balance(r.validators, v, c));
  }

  /** Every run reconciles modulo 2^64, reused IDs and any initial balances included. */
  lemma {:induction false} ReconcilesModulo(vs: map<string, Validator>, ops: seq<Op>, v: string, c: string)
    ensures Reconciled(vs, Run(New(vs), ops), v, c)
    decreases |ops|
  {
    if ops != [] {
      ReconcilesModulo(vs, ops[..|ops| - 1], v, c);
      StepKeepsReconciled(vs, Run(New(vs), ops[..|ops| - 1]), ops[|ops| - 1], v, c);
    }
  }

  // ----- Conservation and arithmetic bounds -----

  /** Sum of all validators' balances in one currency. */
  ghost function Total(vs: map<string, Validator>, c: string): int
    decreases |vs|
  {
    if vs == map[] then 0
    else
      var v :| v in vs;
      Balance(vs, v, c) + Total(vs - {v}, c)
  }

  /** The sum does not depend on the order of summation. */
  lemma {:induction false} TotalSplit(vs: map<string, Validator>, v: string, c: string)
    requires v in vs
    ensures Total(vs, c) == Balance(vs, v, c) + Total(vs - {v}, c)
    decreases |vs|
  {
    var w :| w in vs && Total(vs, c) == Balance(vs, w, c) + Total(vs - {w}, c);
    if w != v {
      TotalSplit(vs - {w}, v, c);
      TotalSplit(vs - {v}, w, c);
      assert vs - {w} - {v} == vs - {v} - {w};
      assert Balance(vs - {w}, v, c) == Balance(vs, v, c) && Balance(vs - {v}, w, c) == Balance(vs, w, c);
    }
  }

  lemma TotalUpdate(vs: map<string, Validator>, v: string, w: Validator, c: string)
    requires v in vs
    ensures Total(vs[v := w], c) == Total(vs, c) - Balance(vs, v, c) + Balance(vs[v := w], v, c)
  {
    TotalSplit(vs, v, c);
    TotalSplit(vs[v := w], v, c);
    assert vs[v := w] - {v} == vs - {v};
  }

  /** Non-negative balances whose per-currency totals fit in an int64. */
  ghost predicate Funded(vs: map<string, Validator>) {
    && (forall v, c :: Balance(vs, v, c) >= 0)
    && (forall c :: Total(vs, c) < TWO_63)
  }

  lemma {:induction false} TotalNonNegative(vs: map<string, Validator>, c: string)
    requires forall v :: Balance(vs, v, c) >= 0
    ensures Total(vs, c) >= 0
    decreases |vs|
  {
    if vs != map[] {
      var v :| v in vs && Total(vs, c) == Balance(vs, v, c) + Total(vs - {v}, c);
      assert forall w :: Balance(vs - {v}, w, c) == if w == v then 0 else Balance(vs, w, c);
      TotalNonNegative(vs - {v}, c);
    }
  }

  /** Two different validators together never hold more than the total. */
  lemma PairBelowTotal(vs: map<string, Validator>, v: string, w: string, c: string)
    requires v in vs && w in vs && v != w
    requires forall u :: Balance(vs, u, c) >= 0
    ensures Balance(vs, v, c) + Balance(vs, w, c) <= Total(vs, c)
  {
    TotalSplit(vs, v, c);
    TotalSplit(vs - {v}, w, c);
    assert forall u :: Balance(vs - {v} - {w}, u, c) == if u == v || u == w then 0 else Balance(vs, u, c);
    TotalNonNegative(vs - {v} - {w}, c);
  }

  /** The plain sums that Commit stores, before any wrap-around, fit in an int64. */
  ghost predicate TransferInRange(vs: map<string, Validator>, tx: Transaction)
    requires KnownParties(vs, tx)
  {
    && 0 <= Balance(vs, tx.from, tx.currency) - tx.amount
    && Balance(AddBalance(vs, tx.from, tx.currency, -tx.amount), tx.to, tx.currency) + tx.amount < TWO_63
  }

  lemma TransferExact(vs: map<string, Validator>, tx: Transaction, v: string, c: string)
    requires Funded(vs) && KnownParties(vs, tx) && Balance(vs, tx.from, tx.currency) >= tx.amount
    ensures TransferInRange(vs, tx)
    ensures Balance(Transfer(vs, tx), v, c) == Balance(vs, v, c) + Effect(tx.(status := Confirmed), v, c)
    ensures Balance(Transfer(vs, tx), v, c) >= 0
  {
    if tx.from != tx.to { PairBelowTotal(vs, tx.from, tx.to, tx.currency); }
    TransferEffect(vs, tx, v, c);
  }

  lemma TransferTotal(vs: map<string, Validator>, tx: Transaction, c: string)
    requires Funded(vs) && KnownParties(vs, tx) && Balance(vs, tx.from, tx.currency) >= tx.amount
    ensures Total(Transfer(vs, tx), c) == Total(vs, c)
  {
    var mid := AddBalance(vs, tx.from, tx.currency, -tx.amount);
    TransferExact(vs, tx, tx.to, c);
    TotalUpdate(vs, tx.from, mid[tx.from], c);
    TotalUpdate(mid, tx.to, Transfer(vs, tx)[tx.to], c);
  }

  lemma TransferFunded(vs: map<string, Validator>, tx: Transaction)
    requires Funded(vs) && KnownParties(vs, tx) && Balance(vs, tx.from, tx.currency) >= tx.amount
    ensures TransferInRange(vs, tx)
    ensures Funded(Transfer(vs, tx))
    ensures forall c :: Total(Transfer(vs, tx), c) == Total(vs, c)
  {
    forall v, c ensures Balance(Transfer(vs, tx), v, c) >= 0 { TransferExact(vs, tx, v, c); }
    forall c ensures Total(Transfer(vs, tx), c) == Total(vs, c) { TransferTotal(vs, tx, c); }
    TransferExact(vs, tx, tx.from, tx.currency);
  }

  lemma TotalAddNonce(vs: map<string, Validator>, v: string, delta: int)
    requires v in vs
    ensures forall c :: Total(AddNonce(vs, v, delta), c) == Total(vs, c)
    ensures forall w, c :: Balance(AddNonce(vs, v, delta), w, c) == Balance(vs, w, c)
  {
    forall c
      ensures Total(AddNonce(vs, v, delta), c) == Total(vs, c)
    {
      TotalUpdate(vs, v, AddNonce(vs, v, delta)[v], c);
    }
  }

  lemma StepFunded(s: LedgerState, op: Op)
    requires Wf(s) && Funded(s.validators)
    ensures Funded(Step(s, op).validators)
    ensures forall c :: Total(Step(s, op).validators, c) == Total(s.validators, c)
  {
    match op
    case OpSubmit(tx) => if SubmitCheck(s, tx).None? { TotalAddNonce(s.validators, tx.from, 1); }
    case OpSubmitIfAbsent(tx) => if SubmitCheck(s, tx).None? { TotalAddNonce(s.validators, tx.from, 1); }
    case OpCleanup(id) => if id in s.pending { TotalAddNonce(s.validators, s.allTxs[s.pending[id]].from, -1); }
    case OpPropose(_) =>
    case OpCommit(id) =>
      if CommitCheck(s, id) == Committed { TransferFunded(s.validators, s.allTxs[s.pending[id]]); }
    case OpAttach(_, _) =>
  }

  /**
   From funded initial balances, in every reachable state: no balance is negative, every per-currency
   total is the initial one, a commit that succeeds computes sums that fit in an int64, and each balance
   is exactly initial + in - out over the confirmed history.
   */
  lemma {:induction false} ConservesMoney(vs: map<string, Validator>, ops: seq<Op>)
    requires Funded(vs)
    ensures var r := Run(New(vs), ops);
            && Funded(r.validators)
            && (forall c :: Total(r.validators, c) == Total(vs, c))
            && (forall v, c :: Balance(r.validators, v, c) == Balance(vs, v, c) + Net(r.allTxs, v, c))
            && (forall id :: CommitCheck(r, id) == Committed ==> TransferInRange(r.validators, r.allTxs[r.pending[id]]))
    decreases |ops|
  {
    var r := Run(New(vs), ops);
    if ops != [] {
      var n := |ops| - 1;
      var s := Run(New(vs), ops[..n]);
      ConservesMoney(vs, ops[..n]);
      StepFunded(s, ops[n]);
      forall v, c
        ensures Balance(r.validators, v, c) == Balance(vs, v, c) + Net(r.allTxs, v, c)
      {
        StepReconcilesExactly(s, ops[n], v, c);
      }
    }
    forall id | CommitCheck(r, id) == Committed
      ensures TransferInRange(r.validators, r.allTxs[r.pending[id]])
    {
      TransferFunded(r.validators, r.allTxs[r.pending[id]]);
    }
  }

  lemma StepReconcilesExactly(s: LedgerState, op: Op, v: string, c: string)
    requires Wf(s) && Funded(s.validators)
    ensures var r := Step(s, op);
            Balance(r.validators, v, c) == Balance(s.validators, v, c) + Net(r.allTxs, v, c) - Net(s.allTxs, v, c)
  {
    if op.OpCommit? && CommitCheck(s, op.id) == Committed {
      CommitNet(s, op.id, v, c);
      TransferExact(s.validators, s.allTxs[s.pending[op.id]], v, c);
    } else {
      StepKeepsBalance(s, op, v, c);
    }
  }

  // ----- Nonces -----

  ghost function PendingFrom(s: LedgerState, v: string): set<string>
    requires Wf(s)
  {
    set id | id in s.pending && s.allTxs[s.pending[id]].from == v
  }

  /** Every pending transaction of v is still paid for by one of v's nonce increments. */
  ghost predicate NonceCovers(vs: map<string, Validator>, s: LedgerState)
    requires Wf(s)
  {
    && s.validators.Keys == vs.Keys
    && forall v <- vs :: vs[v].nonce + |PendingFrom(s, v)| <= s.validators[v].nonce <= vs[v].nonce + |s.allTxs|
  }

  /** r keeps enough nonce for what it has pending, if s did. */
  ghost predicate NonceKeepsUp(s: LedgerState, r: LedgerState, v: string)
    requires Wf(s) && Wf(r) && v in s.validators
  {
    && v in r.validators
    && |PendingFrom(r, v)| - |PendingFrom(s, v)|
         <= r.validators[v].nonce - s.validators[v].nonce <= |r.allTxs| - |s.allTxs|
  }

  lemma StepNonce(s: LedgerState, op: Op, v: string)
    requires Wf(s) && v in s.validators
    ensures NonceKeepsUp(s, Step(s, op), v)
  {
    match op
    case OpSubmit(tx) => SubmitNonce(s, tx, v);
    case OpSubmitIfAbsent(tx) => SubmitNonce(s, tx, v);
    case OpCleanup(id) => CleanupNonce(s, id, v);
    case OpPropose(w) => assert PendingFrom(Propose(s, w), v) == PendingFrom(s, v);
    case OpCommit(id) => CommitNonce(s, id, v);
    case OpAttach(id, rid) => AttachNonce(s, id, rid, v);
  }

  lemma CleanupNonce(s: LedgerState, id: string, v: string)
    requires Wf(s) && v in s.validators
    ensures NonceKeepsUp(s, Cleanup(s, id), v)
  {
    PendingAfterRemoval(s, Cleanup(s, id), id, v);
  }

  lemma CommitNonce(s: LedgerState, id: string, v: string)
    requires Wf(s) && v in s.validators
    ensures NonceKeepsUp(s, Commit(s, id), v)
  {
    PendingAfterRemoval(s, Commit(s, id), id, v);
    if CommitCheck(s, id) == Committed { TransferNonce(s.validators, s.allTxs[s.pending[id]], v); }
  }

  lemma TransferNonce(vs: map<string, Validator>, tx: Transaction, v: string)
    requires KnownParties(vs, tx) && v in vs
    ensures v in Transfer(vs, tx) && Transfer(vs, tx)[v].nonce == vs[v].nonce
  {
  }

  lemma AttachNonce(s: LedgerState, id: string, rid: string, v: string)
    requires Wf(s) && v in s.validators
    ensures NonceKeepsUp(s, Attach(s, id, rid), v)
  {
    assert PendingFrom(Attach(s, id, rid), v) == PendingFrom(s, v);
  }

  lemma StepValidators(s: LedgerState, op: Op)
    requires Wf(s)
    ensures Step(s, op).validators.Keys == s.validators.Keys
  {
  }

  lemma PendingAfterRemoval(s: LedgerState, r: LedgerState, id: string, v: string)
    requires Wf(s) && Wf(r) && r.pending == s.pending - {id} && |r.allTxs| == |s.allTxs|
    requires forall i | 0 <= i < |s.allTxs| :: r.allTxs[i].from == s.allTxs[i].from
    ensures PendingFrom(r, v) == PendingFrom(s, v) - {id}
    ensures |PendingFrom(r, v)| == |PendingFrom(s, v)| - if id in PendingFrom(s, v) then 1 else 0
  {
  }

  lemma SubmitNonce(s: LedgerState, tx: Transaction, v: string)
    requires Wf(s) && v in s.validators
    ensures NonceKeepsUp(s, Submit(s, tx), v)
  {
    if SubmitCheck(s, tx).None? {
      var before := PendingFrom(s, v) + if tx.from == v then {tx.id} else {};
      SubmitAddsPending(s, tx, v);
      SubsetSize(PendingFrom(Submit(s, tx), v), before);
    }
  }

  lemma SubmitAddsPending(s: LedgerState, tx: Transaction, v: string)
    requires Wf(s) && SubmitCheck(s, tx).None?
    ensures PendingFrom(Submit(s, tx), v) <= PendingFrom(s, v) + if tx.from == v then {tx.id} else {}
  {
    var r := Submit(s, tx);
    assert forall id | id in s.pending && id != tx.id :: r.allTxs[r.pending[id]] == s.allTxs[s.pending[id]];
  }

  /** The decrement in CleanupPending never goes below the initial nonce, so it never underflows. */
  lemma {:induction false} NonceNeverUnderflows(vs: map<string, Validator>, ops: seq<Op>)
    ensures var r := Run(New(vs), ops);
            && NonceCovers(vs, r)
            && forall id <- r.pending :: var v := r.allTxs[r.pending[id]].from;
                 v in vs && vs[v].nonce <= r.validators[v].nonce - 1
    decreases |ops|
  {
    var r := Run(New(vs), ops);
    if ops == [] {
      forall v <- vs ensures |PendingFrom(r, v)| == 0 { assert PendingFrom(r, v) == {}; }
    } else {
      var s := Run(New(vs), ops[..|ops| - 1]);
      NonceNeverUnderflows(vs, ops[..|ops| - 1]);
      StepValidators(s, ops[|ops| - 1]);
      forall v <- vs { StepNonce(s, ops[|ops| - 1], v); }
    }
    forall id <- r.pending
      ensures var v := r.allTxs[r.pending[id]].from; v in vs && vs[v].nonce <= r.validators[v].nonce - 1
    {
      var v := r.allTxs[r.pending[id]].from;
      assert id in PendingFrom(r, v);
    }
  }

  // ----- Lifecycle -----

  /** How one recorded transaction may change: identity and terms are fixed, a terminal status stays,
      and an attached receipt stays. */
  predicate Evolves(a: Transaction, b: Transaction) {
    && b == a.(status := b.status, receiptID := b.receiptID)
    && (a.status != Pending ==> b.status == a.status)
    && (a.receiptID != "" ==> b.receiptID == a.receiptID)
  }

  ghost predicate HistoryGrows(a: seq<Transaction>, b: seq<Transaction>) {
    |a| <= |b| && forall i | 0 <= i < |a| :: Evolves(a[i], b[i])
  }

  lemma StepGrows(s: LedgerState, op: Op)
    requires Wf(s)
    ensures HistoryGrows(s.allTxs, Step(s, op).allTxs)
    ensures s.seen <= Step(s, op).seen
  {
    match op
    case OpSubmit(tx) => SubmitGrows(s, tx);
    case OpSubmitIfAbsent(tx) => SubmitGrows(s, tx);
    case OpCommit(id) => CommitGrows(s, id);
    case OpCleanup(id) => CleanupGrows(s, id);
    case OpAttach(id, rid) => AttachGrows(s, id, rid);
    case OpPropose(_) =>
  }

  lemma CleanupGrows(s: LedgerState, id: string)
    requires Wf(s)
    ensures HistoryGrows(s.allTxs, Cleanup(s, id).allTxs) && s.seen <= Cleanup(s, id).seen
  {
  }

  lemma AttachGrows(s: LedgerState, id: string, rid: string)
    requires Wf(s)
    ensures HistoryGrows(s.allTxs, Attach(s, id, rid).allTxs) && s.seen <= Attach(s, id, rid).seen
  {
  }

  lemma SubmitGrows(s: LedgerState, tx: Transaction)
    requires Wf(s)
    ensures HistoryGrows(s.allTxs, Submit(s, tx).allTxs) && s.seen <= Submit(s, tx).seen
  {
  }

  lemma CommitGrows(s: LedgerState, id: string)
    requires Wf(s)
    ensures HistoryGrows(s.allTxs, Commit(s, id).allTxs) && s.seen <= Commit(s, id).seen
  {
    if id in s.pending { CommitFiles(s, id); }
  }

  /** Along any run the history only grows and entries only evolve; this holds between any two points of it. */
  lemma {:induction false} HistoryIsAppendOnly(s: LedgerState, ops: seq<Op>)
    requires Wf(s)
    ensures HistoryGrows(s.allTxs, Run(s, ops).allTxs)
    ensures s.seen <= Run(s, ops).seen
    decreases |ops|
  {
    if ops != [] {
      HistoryIsAppendOnly(s, ops[..|ops| - 1]);
      StepGrows(Run(s, ops[..|ops| - 1]), ops[|ops| - 1]);
    }
  }

  /** Runs in which no ID is submitted twice: plain submits use unseen IDs, IfAbsent needs no condition. */
  predicate FreshOp(s: LedgerState, op: Op) {
    op.OpSubmit? ==> op.tx.id !in s.seen
  }

  predicate FreshRun(s: LedgerState, ops: seq<Op>)
    requires Wf(s)
    decreases |ops|
  {
    ops == [] || (FreshRun(s, ops[..|ops| - 1]) && FreshOp(Run(s, ops[..|ops| - 1]), ops[|ops| - 1]))
  }

  /** Where an entry's ID is filed tells its status. */
  predicate Filed(tx: Transaction, pending: set<string>, confirmed: set<string>) {
    && (tx.status == Pending <==> tx.id in pending)
    && (tx.status == Confirmed <==> tx.id in confirmed)
  }

  ghost predicate UniqueIds(txs: seq<Transaction>) {
    forall i, j | 0 <= i < j < |txs| :: txs[i].id != txs[j].id
  }

  /** Every seen ID has exactly one history entry, filed by its status. */
  ghost predicate Lifecycle(s: LedgerState) {
    && UniqueIds(s.allTxs)
    && (forall id <- s.seen :: exists i :: 0 <= i < |s.allTxs| && s.allTxs[i].id == id)
    && (forall i | 0 <= i < |s.allTxs| :: Filed(s.allTxs[i], s.pending.Keys, s.confirmed.Keys))
  }

  ghost function RejectedIds(s: LedgerState): set<string> {
    set i | 0 <= i < |s.allTxs| && s.allTxs[i].status == Rejected :: s.allTxs[i].id
  }

  /** Only confirmed entries carry receipts. */
  ghost predicate BlankUntilConfirmed(txs: seq<Transaction>) {
    forall i | 0 <= i < |txs| :: txs[i].receiptID != "" ==> txs[i].status == Confirmed
  }

  /** Freshly built transactions carry no receipt, as in every caller of the ledger. */
  predicate NoReceiptYet(op: Op) {
    op.OpSubmit? || op.OpSubmitIfAbsent? ==> op.tx.receiptID == ""
  }

  /**
   When no ID is submitted twice: the history lists each ID once, filed by status, and the seen IDs are
   at all times the disjoint union of the pending, the confirmed and the rejected ones.
   */
  lemma {:induction false} LifecycleHolds(vs: map<string, Validator>, ops: seq<Op>)
    requires FreshRun(New(vs), ops)
    ensures var r := Run(New(vs), ops);
            && Lifecycle(r)
            && r.seen == r.pending.Keys + r.confirmed.Keys + RejectedIds(r)
            && r.pending.Keys !! r.confirmed.Keys !! RejectedIds(r)
    decreases |ops|
  {
    if ops != [] {
      var n := |ops| - 1;
      LifecycleHolds(vs, ops[..n]);
      StepLifecycle(Run(New(vs), ops[..n]), ops[n]);
    }
    SeenPartition(Run(New(vs), ops));
  }

  /** When transactions are submitted without a receipt, only confirmed ones ever carry one, reused IDs included. */
  lemma {:induction false} ReceiptsOnlyWhenConfirmed(vs: map<string, Validator>, ops: seq<Op>)
    requires forall op <- ops :: NoReceiptYet(op)
    ensures BlankUntilConfirmed(Run(New(vs), ops).allTxs)
  {
    if ops != [] {
      var n := |ops| - 1;
      ReceiptsOnlyWhenConfirmed(vs, ops[..n]);
      StepKeepsBlank(Run(New(vs), ops[..n]), ops[n]);
    }
  }

  lemma StepKeepsBlank(s: LedgerState, op: Op)
    requires Wf(s) && BlankUntilConfirmed(s.allTxs) && NoReceiptYet(op)
    ensures BlankUntilConfirmed(Step(s, op).allTxs)
  {
    match op
    case OpSubmit(tx) => SubmitKeepsBlank(s, tx);
    case OpSubmitIfAbsent(tx) => SubmitKeepsBlank(s, tx);
    case OpCommit(id) => CommitKeepsBlank(s, id);
    case OpCleanup(id) => CleanupKeepsBlank(s, id);
    case OpAttach(id, rid) => AttachKeepsBlank(s, id, rid);
    case OpPropose(_) =>
  }

  lemma SubmitKeepsBlank(s: LedgerState, tx: Transaction)
    requires Wf(s) && BlankUntilConfirmed(s.allTxs) && tx.receiptID == ""
    ensures BlankUntilConfirmed(Submit(s, tx).allTxs)
  {
  }

  lemma CommitKeepsBlank(s: LedgerState, id: string)
    requires Wf(s) && BlankUntilConfirmed(s.allTxs)
    ensures BlankUntilConfirmed(Commit(s, id).allTxs)
  {
    if id in s.pending { CommitFiles(s, id); }
  }

  lemma CleanupKeepsBlank(s: LedgerState, id: string)
    requires Wf(s) && BlankUntilConfirmed(s.allTxs)
    ensures BlankUntilConfirmed(Cleanup(s, id).allTxs)
  {
  }

  lemma AttachKeepsBlank(s: LedgerState, id: string, rid: string)
    requires Wf(s) && BlankUntilConfirmed(s.allTxs)
    ensures BlankUntilConfirmed(Attach(s, id, rid).allTxs)
  {
  }

  lemma SeenPartition(s: LedgerState)
    requires Wf(s) && Lifecycle(s)
    ensures s.seen == s.pending.Keys + s.confirmed.Keys + RejectedIds(s)
    ensures s.pending.Keys !! s.confirmed.Keys !! RejectedIds(s)
  {
    forall id <- s.seen
      ensures id in s.pending.Keys + s.confirmed.Keys + RejectedIds(s)
    {
      var i :| 0 <= i < |s.allTxs| && s.allTxs[i].id == id;
      assert Filed(s.allTxs[i], s.pending.Keys, s.confirmed.Keys);
    }
    forall id | id in RejectedIds(s)
      ensures id !in s.pending && id !in s.confirmed
    {
      var i :| 0 <= i < |s.allTxs| && s.allTxs[i].status == Rejected && s.allTxs[i].id == id;
      assert Filed(s.allTxs[i], s.pending.Keys, s.confirmed.Keys);
    }
    forall id | id in s.pending
      ensures id !in s.confirmed
    {
      assert Filed(s.allTxs[s.pending[id]], s.pending.Keys, s.confirmed.Keys);
    }
  }

  lemma StepLifecycle(s: LedgerState, op: Op)
    requires Wf(s) && Lifecycle(s) && FreshOp(s, op)
    ensures Lifecycle(Step(s, op))
  {
    match op
    case OpSubmit(tx) => SubmitLifecycle(s, tx);
    case OpSubmitIfAbsent(tx) => if tx.id !in s.seen { SubmitLifecycle(s, tx); }
    case OpCleanup(id) => CleanupLifecycle(s, id);
    case OpPropose(_) =>
    case OpCommit(id) => if id in s.pending { CommitLifecycle(s, id); }
    case OpAttach(id, rid) => AttachLifecycle(s, id, rid);
  }

  lemma SubmitLifecycle(s: LedgerState, tx: Transaction)
    requires Wf(s) && Lifecycle(s) && tx.id !in s.seen
    ensures Lifecycle(Submit(s, tx))
  {
    if SubmitCheck(s, tx).None? {
      SubmitFiles(s, tx);
      SubmitLists(s, tx);
      SubmitKeepsUnique(s, tx);
    }
  }

  lemma SubmitFiles(s: LedgerState, tx: Transaction)
    requires Wf(s) && Lifecycle(s) && tx.id !in s.seen && SubmitCheck(s, tx).None?
    ensures var r := Submit(s, tx);
            forall i | 0 <= i < |r.allTxs| :: Filed(r.allTxs[i], r.pending.Keys, r.confirmed.Keys)
  {
    var r := Submit(s, tx);
    forall i | 0 <= i < |r.allTxs|
      ensures Filed(r.allTxs[i], r.pending.Keys, r.confirmed.Keys)
    {
      assert i < |s.allTxs| ==> Filed(s.allTxs[i], s.pending.Keys, s.confirmed.Keys);
      assert tx.id !in s.confirmed;
    }
  }

  lemma SubmitKeepsUnique(s: LedgerState, tx: Transaction)
    requires Wf(s) && UniqueIds(s.allTxs) && tx.id !in s.seen && SubmitCheck(s, tx).None?
    ensures UniqueIds(Submit(s, tx).allTxs)
  {
  }

  lemma SubmitLists(s: LedgerState, tx: Transaction)
    requires Wf(s) && Lifecycle(s) && tx.id !in s.seen && SubmitCheck(s, tx).None?
    ensures var r := Submit(s, tx); forall id <- r.seen :: exists i :: 0 <= i < |r.allTxs| && r.allTxs[i].id == id
  {
    var r := Submit(s, tx);
    forall id <- r.seen
      ensures exists i :: 0 <= i < |r.allTxs| && r.allTxs[i].id == id
    {
      if id == tx.id {
        assert r.allTxs[|s.allTxs|].id == id;
      } else {
        var i :| 0 <= i < |s.allTxs| && s.allTxs[i].id == id;
        assert r.allTxs[i].id == id;
      }
    }
  }

  /** Rewriting the entry at k, and refiling only its ID, keeps the lifecycle. */
  lemma Refile(s: LedgerState, r: LedgerState, k: nat)
    requires Lifecycle(s) && k < |s.allTxs| && r.seen == s.seen
    requires |r.allTxs| == |s.allTxs| && r.allTxs[k].id == s.allTxs[k].id
    requires forall i | 0 <= i < |s.allTxs| && i != k :: r.allTxs[i] == s.allTxs[i]
    requires r.pending.Keys - {s.allTxs[k].id} == s.pending.Keys - {s.allTxs[k].id}
    requires r.confirmed.Keys - {s.allTxs[k].id} == s.confirmed.Keys - {s.allTxs[k].id}
    requires Filed(r.allTxs[k], r.pending.Keys, r.confirmed.Keys)
    ensures Lifecycle(r)
  {
    forall i | 0 <= i < |r.allTxs|
      ensures Filed(r.allTxs[i], r.pending.Keys, r.confirmed.Keys)
    {
      if i != k {
        var id := s.allTxs[i].id;
        assert id != s.allTxs[k].id;
        assert id in r.pending.Keys - {s.allTxs[k].id} <==> id in s.pending.Keys;
        assert id in r.confirmed.Keys - {s.allTxs[k].id} <==> id in s.confirmed.Keys;
        assert Filed(s.allTxs[i], s.pending.Keys, s.confirmed.Keys);
      }
    }
    forall id <- r.seen
      ensures exists i :: 0 <= i < |r.allTxs| && r.allTxs[i].id == id
    {
      var i :| 0 <= i < |s.allTxs| && s.allTxs[i].id == id;
      assert r.allTxs[i].id == id;
    }
  }

  lemma CommitLifecycle(s: LedgerState, id: string)
    requires Wf(s) && Lifecycle(s) && id in s.pending
    ensures Lifecycle(Commit(s, id))
  {
    CommitFiles(s, id);
    Resolved(s, Commit(s, id), id, if CommitCheck(s, id) == Committed then Confirmed else Rejected);
  }

  lemma CommitFiles(s: LedgerState, id: string)
    requires Wf(s) && id in s.pending
    ensures var r := Commit(s, id);
            var status := if CommitCheck(s, id) == Committed then Confirmed else Rejected;
            && r.allTxs == SetStatus(s.allTxs, s.pending[id], status)
            && r.pending.Keys == s.pending.Keys - {id} && r.seen == s.seen
            && r.confirmed.Keys == s.confirmed.Keys + if status == Confirmed then {id} else {}
  {
  }

  lemma CleanupLifecycle(s: LedgerState, id: string)
    requires Wf(s) && Lifecycle(s)
    ensures Lifecycle(Cleanup(s, id))
  {
    if id in s.pending { Resolved(s, Cleanup(s, id), id, Rejected); }
  }

  /** Giving a pending transaction its terminal status, and filing it there, keeps the lifecycle. */
  lemma Resolved(s: LedgerState, r: LedgerState, id: string, status: Status)
    requires Wf(s) && Lifecycle(s) && id in s.pending && status != Pending && r.seen == s.seen
    requires r.allTxs == SetStatus(s.allTxs, s.pending[id], status) && r.pending.Keys == s.pending.Keys - {id}
    requires r.confirmed.Keys == s.confirmed.Keys + if status == Confirmed then {id} else {}
    ensures Lifecycle(r)
  {
    ResolvedFiling(s, r, id, status);
    Refile(s, r, s.pending[id]);
  }

  lemma ResolvedFiling(s: LedgerState, r: LedgerState, id: string, status: Status)
    requires Wf(s) && Lifecycle(s) && id in s.pending && status != Pending
    requires r.allTxs == SetStatus(s.allTxs, s.pending[id], status) && r.pending.Keys == s.pending.Keys - {id}
    requires r.confirmed.Keys == s.confirmed.Keys + if status == Confirmed then {id} else {}
    ensures Filed(r.allTxs[s.pending[id]], r.pending.Keys, r.confirmed.Keys)
    ensures r.pending.Keys - {id} == s.pending.Keys - {id} && r.confirmed.Keys - {id} == s.confirmed.Keys - {id}
  {
    assert Filed(s.allTxs[s.pending[id]], s.pending.Keys, s.confirmed.Keys);
    OneMoved(s.pending.Keys, r.pending.Keys, s.confirmed.Keys, r.confirmed.Keys, id, status == Confirmed);
  }

  lemma OneMoved(pending: set<string>, pending': set<string>, confirmed: set<string>, confirmed': set<string>,
                 id: string, up: bool)
    requires pending' == pending - {id} && confirmed' == confirmed + if up then {id} else {}
    ensures pending' - {id} == pending - {id} && confirmed' - {id} == confirmed - {id}
  {
  }

  lemma AttachLifecycle(s: LedgerState, id: string, rid: string)
    requires Wf(s) && Lifecycle(s)
    ensures Lifecycle(Attach(s, id, rid))
  {
    var r := Attach(s, id, rid);
    if r != s {
      var k := s.confirmed[id];
      assert r == s.(allTxs := s.allTxs[k := s.allTxs[k].(receiptID := rid)]);
      assert Filed(s.allTxs[k], s.pending.Keys, s.confirmed.Keys);
      Refile(s, r, k);
    }
  }

  // ----- Reused IDs -----

  /** Plain SubmitTransaction does not consult the seen IDs: resubmitting a confirmed ID debits it again. */
  lemma ReusedIdIsDebitedTwice(s: LedgerState, tx: Transaction)
    requires Wf(s) && tx.id in s.confirmed && SubmitCheck(s, tx).None?
    ensures var r := Commit(Submit(s, tx), tx.id);
            exists i, j :: 0 <= i < j < |r.allTxs| && r.allTxs[i].id == r.allTxs[j].id == tx.id
                       && r.allTxs[i].status == r.allTxs[j].status == Confirmed
  {
    var m := Submit(s, tx);
    var i, j := s.confirmed[tx.id], |s.allTxs|;
    assert m.allTxs[i] == s.allTxs[i] && m.allTxs[j].id == tx.id && m.pending[tx.id] == j;
    var r := Commit(m, tx.id);
    assert CommitCheck(m, tx.id) == Committed;
    assert r.allTxs[i] == s.allTxs[i] && r.allTxs[j].id == tx.id && r.allTxs[j].status == Confirmed;
  }

  /**
   An accepted plain submit keeps one history entry per ID if and only if its ID was never seen, and so it
   does for the whole lifecycle.  Resubmitting a confirmed ID also files it as pending and confirmed at once.
   */
  lemma SubmitKeepsUniqueIdsIff(s: LedgerState, tx: Transaction)
    requires Wf(s) && Lifecycle(s) && SubmitCheck(s, tx).None?
    ensures UniqueIds(Submit(s, tx).allTxs) <==> tx.id !in s.seen
    ensures Lifecycle(Submit(s, tx)) <==> tx.id !in s.seen
    ensures tx.id in s.confirmed ==> tx.id in Submit(s, tx).pending && tx.id in Submit(s, tx).confirmed
  {
    var r := Submit(s, tx);
    if tx.id in s.seen {
      var i :| 0 <= i < |s.allTxs| && s.allTxs[i].id == tx.id;
      assert r.allTxs[i].id == r.allTxs[|s.allTxs|].id;
    } else {
      SubmitLifecycle(s, tx);
    }
  }
}
