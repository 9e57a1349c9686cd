/**
 The settlement ledger: validators with balances and nonces, a pending pool, a confirmed set and an
 ordered history.  Every method of the source runs under one mutex, so each is one atomic step here.

 A transaction object enters the ledger exactly when it is appended to the history, and later changes
 to it are seen through every map that holds it.  Its index in the history therefore plays the role of
 the pointer: `pending` and `confirmed` map an ID to an index.
 */
module LedgerModel {
  import opened Base

  datatype Status = Pending | Confirmed | Rejected

  datatype Transaction = Transaction(
    id: string, from: string, to: string, amount: int64, currency: string,
    policyID: string, pathFingerprint: string, requestDigest: string,
    receiptID: string, status: Status, nonce: int)

  datatype Validator = Validator(balance: map<string, int64>, nonce: int)

  datatype LedgerState = LedgerState(
    validators: map<string, Validator>,
    pending: map<string, nat>,
    confirmed: map<string, nat>,
    allTxs: seq<Transaction>,
    seen: set<string>,
    currentRound: nat)

  datatype SubmitError = UnknownSender | UnknownRecipient | NonPositiveAmount | InsufficientBalance
  datatype CommitOutcome = Committed | NotPending | InsufficientAtCommit
  datatype AttachOutcome = Attached(tx: Transaction) | StillPending | NotConfirmed | HasOtherReceipt(held: Transaction)

  /** A Go map read: a missing validator or currency counts as zero. */
  function Balance(vs: map<string, Validator>, v: string, c: string): int64 {
    if v in vs && c in vs[v].balance then vs[v].balance[c] else 0
  }

  function AddBalance(vs: map<string, Validator>, v: string, c: string, delta: int): map<string, Validator>
    requires v in vs
  {
    vs[v := vs[v].(balance := vs[v].balance[c := Wrap64(Balance(vs, v, c) + delta)])]
  }

  function AddNonce(vs: map<string, Validator>, v: string, delta: int): map<string, Validator>
    requires v in vs
  {
    vs[v := vs[v].(nonce := vs[v].nonce + delta)]
  }

  /** What every operation keeps: handles point at transactions of the right ID and status. */
  ghost predicate Wf(s: LedgerState) {
    && (forall id <- s.pending :: s.pending[id] < |s.allTxs|
          && s.allTxs[s.pending[id]].id == id && s.allTxs[s.pending[id]].status == Pending)
    && (forall id <- s.confirmed :: s.confirmed[id] < |s.allTxs|
          && s.allTxs[s.confirmed[id]].id == id && s.allTxs[s.confirmed[id]].status == Confirmed)
    && (forall i | 0 <= i < |s.allTxs| :: KnownParties(s.validators, s.allTxs[i]) && s.allTxs[i].id in s.seen)
  }

  predicate KnownParties(vs: map<string, Validator>, tx: Transaction) {
    tx.from in vs && tx.to in vs && tx.amount > 0
  }

  function New(vs: map<string, Validator>): (s: LedgerState)
    ensures Wf(s)
  {
    LedgerState(vs, map[], map[], [], {}, 0)
  }

  /** The validator table built from a list: a later entry for an ID replaces an earlier one. */
  function Seed(initial: seq<(string, Validator)>): map<string, Validator> {
    if initial == [] then map[]
    else
      var n := |initial| - 1;
      Seed(initial[..n])[initial[n].0 := initial[n].1]
  }

  function SubmitCheck(s: LedgerState, tx: Transaction): Option<SubmitError> {
    if tx.from !in s.validators then Some(UnknownSender)
    else if tx.to !in s.validators then Some(UnknownRecipient)
    else if tx.amount <= 0 then Some(NonPositiveAmount)
    else if Balance(s.validators, tx.from, tx.currency) < tx.amount then Some(InsufficientBalance)
    else None
  }

  function Submit(s: LedgerState, tx: Transaction): (r: LedgerState)
    requires Wf(s)
    ensures Wf(r)
  {
    if SubmitCheck(s, tx).Some? then s
    else
      var vs := AddNonce(s.validators, tx.from, 1);
      var stored := tx.(status := Pending, nonce := vs[tx.from].nonce);
      s.(validators := vs, pending := s.pending[tx.id := |s.allTxs|], allTxs := s.allTxs + [stored],
         seen := s.seen + {tx.id})
  }

  function SubmitIfAbsent(s: LedgerState, tx: Transaction): (r: LedgerState)
    requires Wf(s)
    ensures Wf(r)
  {
    if tx.id in s.seen then s else Submit(s, tx)
  }

  /** What GetTransaction returns: confirmed first, then pending. */
  function Lookup(s: LedgerState, id: string): Option<Transaction>
    requires Wf(s)
  {
    if id in s.confirmed then Some(s.allTxs[s.confirmed[id]])
    else if id in s.pending then Some(s.allTxs[s.pending[id]])
    else None
  }

  function RejectedStub(id: string): Transaction {
    Transaction(id, "", "", 0, "", "", "", "", "", Rejected, 0)
  }

  /** The transaction SubmitTransactionIfAbsent hands back when the ID was seen before. */
  function Existing(s: LedgerState, id: string): Option<Transaction>
    requires Wf(s)
  {
    if id !in s.seen then None
    else if Lookup(s, id).Some? then Lookup(s, id)
    else Some(RejectedStub(id))
  }

  function SetStatus(txs: seq<Transaction>, i: nat, status: Status): seq<Transaction>
    requires i < |txs|
  {
    txs[i := txs[i].(status := status)]
  }

  function Cleanup(s: LedgerState, id: string): (r: LedgerState)
    requires Wf(s)
    ensures Wf(r)
  {
    if id !in s.pending then s
    else
      var k := s.pending[id];
      s.(validators := AddNonce(s.validators, s.allTxs[k].from, -1),
         pending := s.pending - {id}, allTxs := SetStatus(s.allTxs, k, Rejected))
  }

  predicate CanPropose(s: LedgerState, v: string) {
    v in s.validators && s.pending != map[]
  }

  function Propose(s: LedgerState, v: string): (r: LedgerState)
    requires Wf(s)
    ensures Wf(r)
  {
    if CanPropose(s, v) then s.(currentRound := s.currentRound + 1) else s
  }

  /** A vote: None when the ID is not pending, else whether the sender can still pay. */
  function Vote(s: LedgerState, id: string): Option<bool>
    requires Wf(s)
  {
    if id !in s.pending then None
    else
      var tx := s.allTxs[s.pending[id]];
      Some(Balance(s.validators, tx.from, tx.currency) >= tx.amount)
  }

  function Transfer(vs: map<string, Validator>, tx: Transaction): map<string, Validator>
    requires KnownParties(vs, tx)
  {
    AddBalance(AddBalance(vs, tx.from, tx.currency, -tx.amount), tx.to, tx.currency, tx.amount)
  }

  function CommitCheck(s: LedgerState, id: string): CommitOutcome
    requires Wf(s)
  {
    match Vote(s, id)
    case None => NotPending
    case Some(canPay) => if canPay then Committed else InsufficientAtCommit
  }

  function Commit(s: LedgerState, id: string): (r: LedgerState)
    requires Wf(s)
    ensures Wf(r)
  {
    match CommitCheck(s, id)
    case NotPending => s
    case InsufficientAtCommit =>
      s.(pending := s.pending - {id}, allTxs := SetStatus(s.allTxs, s.pending[id], Rejected))
    case Committed =>
      var k := s.pending[id];
      s.(validators := Transfer(s.validators, s.allTxs[k]), pending := s.pending - {id},
         confirmed := s.confirmed[id := k], allTxs := SetStatus(s.allTxs, k, Confirmed))
  }

  function AttachCheck(s: LedgerState, id: string, rid: string): AttachOutcome
    requires Wf(s)
  {
    if id !in s.confirmed then
      if id in s.pending then StillPending else NotConfirmed
    else
      var tx := s.allTxs[s.confirmed[id]];
      if tx.receiptID != "" && tx.receiptID != rid then HasOtherReceipt(tx)
      else Attached(tx.(receiptID := rid))
  }

  function Attach(s: LedgerState, id: string, rid: string): (r: LedgerState)
    requires Wf(s)
    ensures Wf(r)
  {
    if AttachCheck(s, id, rid).Attached? && s.allTxs[s.confirmed[id]].receiptID == "" then
      var k := s.confirmed[id];
      s.(allTxs := s.allTxs[k := s.allTxs[k].(receiptID := rid)])
    else s
  }

  /** The ledger object: the fields of the source, updated in place, each method proved against its step. */
  class Ledger {
    var validators: map<string, Validator>
    var pending: map<string, nat>
    var confirmed: map<string, nat>
    var allTxs: seq<Transaction>
    var seen: set<string>
    var currentRound: nat

    function State(): LedgerState
      reads this
    {
      LedgerState(validators, pending, confirmed, allTxs, seen, currentRound)
    }

    constructor (initial: seq<(string, Validator)>)
      ensures State() == New(Seed(initial))
    {
      validators, pending, confirmed, allTxs, seen, currentRound := map[], map[], map[], [], {}, 0;
      new;
      for n := 0 to |initial|
        invariant State() == New(Seed(initial[..n]))
      {
        validators := validators[initial[n].0 := initial[n].1];
        assert initial[..n + 1][..n] == initial[..n];
      }
      assert initial[..|initial|] == initial;
    }

    method SubmitTransaction(tx: Transaction) returns (err: Option<SubmitError>)
      requires Wf(State())
      modifies this
      ensures State() == Submit(old(State()), tx)
      ensures err == SubmitCheck(old(State()), tx)
    {
      if tx.from !in validators { return Some(UnknownSender); }
      if tx.to !in validators { return Some(UnknownRecipient); }
      if tx.amount <= 0 { return Some(NonPositiveAmount); }
      if Balance(validators, tx.from, tx.currency) < tx.amount { return Some(InsufficientBalance); }
      var sender := validators[tx.from];
      sender := sender.(nonce := sender.nonce + 1);
      validators := validators[tx.from := sender];
      pending := pending[tx.id := |allTxs|];
      allTxs := allTxs + [tx.(status := Pending, nonce := sender.nonce)];
      seen := seen + {tx.id};
      err := None;
    }

    method SubmitTransactionIfAbsent(tx: Transaction) returns (existing: Option<Transaction>, err: Option<SubmitError>)
      requires Wf(State())
      modifies this
      ensures State() == SubmitIfAbsent(old(State()), tx)
      ensures existing == Existing(old(State()), tx.id)
      ensures err == if tx.id in old(seen) then None else SubmitCheck(old(State()), tx)
    {
      existing, err := None, None;
      if tx.id in seen {
        existing := GetTransaction(tx.id);
        if existing.None? { existing := Some(RejectedStub(tx.id)); }
      } else {
        err := SubmitTransaction(tx);
      }
    }

    method CleanupPending(id: string)
      requires Wf(State())
      modifies this
      ensures State() == Cleanup(old(State()), id)
    {
      if id in pending {
        var k := pending[id];
        allTxs := SetStatus(allTxs, k, Rejected);
        validators := AddNonce(validators, allTxs[k].from, -1);
        pending := pending - {id};
      }
    }

    /** Any pending ID may be proposed: Go's map iteration order is unspecified. */
    method ProposeBlock(v: string) returns (target: Option<string>)
      requires Wf(State())
      modifies this
      ensures State() == Propose(old(State()), v)
      ensures target.Some? <==> CanPropose(old(State()), v)
      ensures target.Some? ==> target.value in old(pending)
    {
      target := None;
      if v in validators && pending.Keys != {} {
        var id :| id in pending.Keys;
        currentRound := currentRound + 1;
        target := Some(id);
      }
    }

    method CastVote(id: string) returns (vote: Option<bool>)
      requires Wf(State())
      ensures vote == Vote(State(), id)
    {
      if id !in pending { return None; }
      var tx := allTxs[pending[id]];
      vote := Some(Balance(validators, tx.from, tx.currency) >= tx.amount);
    }

    method CommitTransaction(id: string) returns (outcome: CommitOutcome)
      requires Wf(State())
      modifies this
      ensures State() == Commit(old(State()), id)
      ensures outcome == CommitCheck(old(State()), id)
    {
      if id !in pending { return NotPending; }
      var k := pending[id];
      var tx := allTxs[k];
      if Balance(validators, tx.from, tx.currency) < tx.amount {
        assert CommitCheck(State(), id) == InsufficientAtCommit;
        allTxs := SetStatus(allTxs, k, Rejected);
        pending := pending - {id};
        return InsufficientAtCommit;
      }
      ghost var s := State();
      assert CommitCheck(s, id) == Committed;
      validators := AddBalance(validators, tx.from, tx.currency, -tx.amount);
      validators := AddBalance(validators, tx.to, tx.currency, tx.amount);
      assert validators == Transfer(s.validators, tx);
      allTxs := SetStatus(allTxs, k, Confirmed);
      pending := pending - {id};
      confirmed := confirmed[id := k];
      outcome := Committed;
      assert State() == s.(validators := Transfer(s.validators, tx), pending := s.pending - {id},
                           confirmed := s.confirmed[id := k], allTxs := SetStatus(s.allTxs, k, Confirmed));
    }

    method AttachReceipt(id: string, rid: string) returns (outcome: AttachOutcome)
      requires Wf(State())
      modifies this
      ensures State() == Attach(old(State()), id, rid)
      ensures outcome == AttachCheck(old(State()), id, rid)
    {
      if id !in confirmed {
        if id in pending { return StillPending; }
        return NotConfirmed;
      }
      var k := confirmed[id];
      var tx := allTxs[k];
      if tx.receiptID != "" {
        if tx.receiptID != rid { return HasOtherReceipt(tx); }
        return Attached(tx);
      }
      tx := tx.(receiptID := rid);
      allTxs := allTxs[k := tx];
      outcome := Attached(tx);
    }

    method GetTransaction(id: string) returns (tx: Option<Transaction>)
      requires Wf(State())
      ensures tx == Lookup(State(), id)
    {
      if id in confirmed { return Some(allTxs[confirmed[id]]); }
      if id in pending { return Some(allTxs[pending[id]]); }
      tx := None;
    }
  }
}
