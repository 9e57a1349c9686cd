/**
 The single-process consensus engine: submit, propose, collect a vote per validator, then commit on a
 majority or clean up.
 */
module EngineModel {
  import opened Base
  import opened LedgerModel
  import opened LedgerRuns

  datatype ConsensusResult = ConsensusResult(confirmed: bool, round: nat, votes: nat, txID: string)

  datatype RoundError = NoValidators | CannotPropose | CommitFailed(outcome: CommitOutcome)

  /** Yes votes when every validator on the list votes on the same proposal against one ledger state. */
  function YesVotes(s: LedgerState, target: string, n: nat): nat
    requires Wf(s)
  {
    if Vote(s, target) == Some(true) then n else 0
  }

  predicate Majority(yes: nat, n: nat) { yes >= n / 2 + 1 }

  /** A round confirms txID when the votes on `target` reach a majority and txID can be paid at commit. */
  predicate RoundConfirms(s: LedgerState, validators: seq<string>, txID: string, target: string)
    requires Wf(s)
  {
    && validators != [] && CanPropose(s, validators[0])
    && Majority(YesVotes(s, target, |validators|), |validators|)
    && CommitCheck(s, txID) == Committed
  }

  /** The ledger after a round for txID in which `target` was the proposed transaction. */
  function RoundState(s: LedgerState, validators: seq<string>, txID: string, target: string): (r: LedgerState)
    requires Wf(s)
    ensures Wf(r)
  {
    if validators == [] || !CanPropose(s, validators[0]) then Cleanup(s, txID)
    else
      var p := Propose(s, validators[0]);
      if RoundConfirms(s, validators, txID, target) then Commit(p, txID)
      else if Majority(YesVotes(p, target, |validators|), |validators|) then Cleanup(Commit(p, txID), txID)
      else Cleanup(p, txID)
  }

  /** What a round for txID reports: the round it ran in and the yes votes on the proposal. */
  function RoundResult(s: LedgerState, validators: seq<string>, txID: string, target: string): ConsensusResult
    requires Wf(s)
  {
    if validators == [] || !CanPropose(s, validators[0]) then ConsensusResult(false, 0, 0, txID)
    else
      ConsensusResult(RoundConfirms(s, validators, txID, target), s.currentRound + 1,
                      YesVotes(s, target, |validators|), txID)
  }

  /** The error of a round: none when it confirms or when the votes do not suffice. */
  function RoundFailure(s: LedgerState, validators: seq<string>, txID: string, target: string): Option<RoundError>
    requires Wf(s)
  {
    if validators == [] then Some(NoValidators)
    else if !CanPropose(s, validators[0]) then Some(CannotPropose)
    else if Majority(YesVotes(s, target, |validators|), |validators|) && CommitCheck(s, txID) != Committed
      then Some(CommitFailed(CommitCheck(s, txID)))
    else None
  }

  /** The engine shares its ledger with other components; its own state is the fixed validator list. */
  class ConsensusEngine {
    const ledger: Ledger
    const validators: seq<string>

    constructor (ledger: Ledger, validators: seq<string>)
      ensures this.ledger == ledger && this.validators == validators
    {
      this.ledger, this.validators := ledger, validators;
    }

    /** One round for a transaction that is already pending. The proposal may name any pending transaction. */
    method ProposeVoteCommit(txID: string)
      returns (result: ConsensusResult, err: Option<RoundError>, ghost target: string)
      requires Wf(ledger.State()) && txID in ledger.pending
      modifies ledger
      ensures Wf(ledger.State())
      ensures target in old(ledger.pending)
      ensures ledger.State() == RoundState(old(ledger.State()), validators, txID, target)
      ensures result == RoundResult(old(ledger.State()), validators, txID, target)
      ensures err == RoundFailure(old(ledger.State()), validators, txID, target)
      ensures result.confirmed ==> err.None? && result.votes == |validators|
    {
      ghost var s0 := ledger.State();
      target := txID;
      if |validators| == 0 {
        ledger.CleanupPending(txID);
        return ConsensusResult(false, 0, 0, txID), Some(NoValidators), target;
      }
      var proposal := ledger.ProposeBlock(validators[0]);
      if proposal.None? {
        ledger.CleanupPending(txID);
        return ConsensusResult(false, 0, 0, txID), Some(CannotPropose), target;
      }
      target := proposal.value;
      var round := ledger.currentRound;
      var yes: nat := 0;
      for i := 0 to |validators|
        invariant ledger.State() == Propose(s0, validators[0])
        invariant yes == YesVotes(ledger.State(), target, i)
      {
        var vote := ledger.CastVote(proposal.value);
        if vote == Some(true) { yes := yes + 1; }
      }
      if yes >= |validators| / 2 + 1 {
        var outcome := ledger.CommitTransaction(txID);
        if outcome != Committed {
          ledger.CleanupPending(txID);
          return ConsensusResult(false, round, yes, txID), Some(CommitFailed(outcome)), target;
        }
        return ConsensusResult(true, round, yes, txID), None, target;
      }
      ledger.CleanupPending(txID);
      return ConsensusResult(false, round, yes, txID), None, target;
    }

    /** Submit if absent, then one round, under the engine's lock. */
    method SubmitAndRunRound(tx: Transaction)
      returns (existing: Option<Transaction>, result: Option<ConsensusResult>, err: Option<SubmitError>,
               failure: Option<RoundError>, ghost target: string)
      requires Wf(ledger.State())
      modifies ledger
      ensures Wf(ledger.State())
      ensures existing == Existing(old(ledger.State()), tx.id)
      ensures err == if tx.id in old(ledger.seen) then None else SubmitCheck(old(ledger.State()), tx)
      ensures result.Some? <==> existing.None? && err.None?
      ensures result.None? ==> ledger.State() == old(ledger.State()) && failure.None?
      ensures result.Some? ==>
                var m := Submit(old(ledger.State()), tx);
                && target in m.pending && ledger.State() == RoundState(m, validators, tx.id, target)
                && result.value == RoundResult(m, validators, tx.id, target)
                && failure == RoundFailure(m, validators, tx.id, target)
      ensures result.Some? && old(ledger.pending) == map[]
              ==> ledger.State() == EngineStep(old(ledger.State()), validators, tx)
      ensures result.Some? && old(ledger.pending) == map[] && CanRun(old(ledger.validators), validators) ==>
                result.value == ConsensusResult(true, old(ledger.currentRound) + 1, |validators|, tx.id)
    {
      ghost var s := ledger.State();
      existing, err := ledger.SubmitTransactionIfAbsent(tx);
      result, failure, target := None, None, tx.id;
      if existing.None? && err.None? {
        var r;
        r, failure, target := ProposeVoteCommit(tx.id);
        result := Some(r);
        if s.pending == map[] {
          assert target == tx.id;
          if CanRun(s.validators, validators) { AcceptedIsConfirmed(s, validators, tx); }
        }
      }
    }
  }

  /** A non-empty validator list whose first entry, the proposer, is known to the ledger. */
  predicate CanRun(vs: map<string, Validator>, validators: seq<string>) {
    validators != [] && validators[0] in vs
  }

  /** One whole SubmitAndRunRound call, when no other transaction is pending. */
  function EngineStep(s: LedgerState, validators: seq<string>, tx: Transaction): (r: LedgerState)
    requires Wf(s)
    ensures Wf(r)
  {
    if tx.id in s.seen || SubmitCheck(s, tx).Some? then s
    else RoundState(Submit(s, tx), validators, tx.id, tx.id)
  }

  /** What happens to the ledger of one engine: whole SubmitAndRunRound calls, and receipts being attached. */
  datatype EngineOp = Call(tx: Transaction) | AttachTo(id: string, rid: string)

  function EngineRun(s: LedgerState, validators: seq<string>, ops: seq<EngineOp>): (r: LedgerState)
    requires Wf(s)
    ensures Wf(r)
  {
    if ops == [] then s
    else
      var m := EngineRun(s, validators, ops[..|ops| - 1]);
      match ops[|ops| - 1]
      case Call(tx) => EngineStep(m, validators, tx)
      case AttachTo(id, rid) => Attach(m, id, rid)
  }

  /** With nothing else pending, an accepted submission is confirmed by every validator in its own round. */
  lemma AcceptedIsConfirmed(s: LedgerState, validators: seq<string>, tx: Transaction)
    requires Wf(s) && s.pending == map[] && CanRun(s.validators, validators)
    requires tx.id !in s.seen && SubmitCheck(s, tx).None?
    ensures var m, r := Submit(s, tx), EngineStep(s, validators, tx);
            && m.pending.Keys == {tx.id}
            && RoundConfirms(m, validators, tx.id, tx.id)
            && YesVotes(m, tx.id, |validators|) == |validators|
            && r.pending == map[] && tx.id in r.confirmed
            && r.currentRound == s.currentRound + 1
            && r.allTxs == s.allTxs + [tx.(status := Confirmed, nonce := s.validators[tx.from].nonce + 1)]
  {
    var m := Submit(s, tx);
    assert m.allTxs[m.pending[tx.id]] == tx.(status := Pending, nonce := s.validators[tx.from].nonce + 1);
    assert Vote(m, tx.id) == Some(true);
  }

  /** Without a usable proposer every accepted submission is cleaned up again, nonce included. */
  lemma UnusableEngineRejects(s: LedgerState, validators: seq<string>, tx: Transaction)
    requires Wf(s) && s.pending == map[] && !CanRun(s.validators, validators)
    requires tx.id !in s.seen && SubmitCheck(s, tx).None?
    ensures var r := EngineStep(s, validators, tx);
            && r.pending == map[] && r.confirmed == s.confirmed && r.validators == s.validators
            && r.allTxs[..|s.allTxs|] == s.allTxs && |r.allTxs| == |s.allTxs| + 1
            && r.allTxs[|s.allTxs|].status == Rejected
  {
    var m := Submit(s, tx);
    var r := EngineStep(s, validators, tx);
    assert r == Cleanup(m, tx.id);
    assert r.validators[tx.from] == s.validators[tx.from];
    assert r.validators == s.validators;
  }

  /** Number of history entries sent by v. */
  function SentBy(txs: seq<Transaction>, v: string): nat {
    if txs == [] then 0
    else SentBy(txs[..|txs| - 1], v) + if txs[|txs| - 1].from == v then 1 else 0
  }

  /** Entry i is confirmed and is its sender's SentBy-th transaction. */
  predicate NumberedAt(vs: map<string, Validator>, txs: seq<Transaction>, i: nat)
    requires i < |txs|
  {
    && txs[i].status == Confirmed && txs[i].from in vs
    && txs[i].nonce == vs[txs[i].from].nonce + SentBy(txs[..i + 1], txs[i].from)
  }

  /** Everything in the history is confirmed, one round each, and each sender's nonces count up by one. */
  ghost predicate RoundsInOrder(vs: map<string, Validator>, s: LedgerState) {
    && s.validators.Keys == vs.Keys
    && s.currentRound == |s.allTxs|
    && (forall v <- vs :: s.validators[v].nonce == vs[v].nonce + SentBy(s.allTxs, v))
    && (forall i | 0 <= i < |s.allTxs| :: NumberedAt(vs, s.allTxs, i))
  }

  lemma EngineStepInOrder(vs: map<string, Validator>, s: LedgerState, validators: seq<string>, tx: Transaction)
    requires Wf(s) && s.pending == map[] && RoundsInOrder(vs, s) && CanRun(vs, validators)
    ensures RoundsInOrder(vs, EngineStep(s, validators, tx))
  {
    if tx.id !in s.seen && SubmitCheck(s, tx).None? {
      AcceptedIsConfirmed(s, validators, tx);
      EngineStepNonce(s, validators, tx);
      OrderExtends(vs, s, EngineStep(s, validators, tx));
    }
  }

  lemma OrderExtends(vs: map<string, Validator>, s: LedgerState, r: LedgerState)
    requires RoundsInOrder(vs, s)
    requires r.validators.Keys == s.validators.Keys && r.currentRound == s.currentRound + 1
    requires |r.allTxs| == |s.allTxs| + 1 && r.allTxs[..|s.allTxs|] == s.allTxs
    requires var tx := r.allTxs[|s.allTxs|];
             && tx.status == Confirmed && tx.from in s.validators && tx.nonce == s.validators[tx.from].nonce + 1
             && forall v <- s.validators ::
                  r.validators[v].nonce == s.validators[v].nonce + if v == tx.from then 1 else 0
    ensures RoundsInOrder(vs, r)
  {
    var n := |s.allTxs|;
    assert r.allTxs[..n + 1] == r.allTxs;
    assert forall v :: SentBy(r.allTxs, v) == SentBy(s.allTxs, v) + if r.allTxs[n].from == v then 1 else 0;
    forall i | 0 <= i < n
      ensures NumberedAt(vs, r.allTxs, i)
    {
      assert NumberedAt(vs, s.allTxs, i);
      assert r.allTxs[..n][i] == s.allTxs[i] && r.allTxs[..i + 1] == s.allTxs[..i + 1];
    }
  }

  lemma EngineStepNonce(s: LedgerState, validators: seq<string>, tx: Transaction)
    requires Wf(s) && s.pending == map[] && CanRun(s.validators, validators)
    requires tx.id !in s.seen && SubmitCheck(s, tx).None?
    ensures var r := EngineStep(s, validators, tx);
            && r.validators.Keys == s.validators.Keys
            && forall v <- s.validators ::
                 r.validators[v].nonce == s.validators[v].nonce + if v == tx.from then 1 else 0
  {
    var m, r := Submit(s, tx), EngineStep(s, validators, tx);
    AcceptedIsConfirmed(s, validators, tx);
    AcceptedValidators(s, validators, tx);
    forall v <- s.validators
      ensures r.validators[v].nonce == s.validators[v].nonce + if v == tx.from then 1 else 0
    {
      TransferNonce(m.validators, m.allTxs[m.pending[tx.id]], v);
    }
  }

  lemma AcceptedValidators(s: LedgerState, validators: seq<string>, tx: Transaction)
    requires Wf(s) && s.pending == map[] && CanRun(s.validators, validators)
    requires tx.id !in s.seen && SubmitCheck(s, tx).None?
    ensures var m := Submit(s, tx);
            EngineStep(s, validators, tx).validators == Transfer(m.validators, m.allTxs[m.pending[tx.id]])
  {
    AcceptedIsConfirmed(s, validators, tx);
  }

  /**
   All submissions through one engine: nothing stays pending between calls.  With a usable proposer every
   recorded transaction is confirmed, in round order, with consecutive nonces per sender; with an
   unusable one nothing is ever confirmed and no balance or nonce moves.
   */
  lemma {:induction false} EngineRounds(vs: map<string, Validator>, validators: seq<string>, ops: seq<EngineOp>)
    ensures var s := EngineRun(New(vs), validators, ops);
            && s.pending == map[]
            && (CanRun(vs, validators) ==> RoundsInOrder(vs, s))
            && (!CanRun(vs, validators) ==> s.validators == vs && s.confirmed == map[])
  {
    if ops != [] {
      var n := |ops| - 1;
      EngineRounds(vs, validators, ops[..n]);
      var s := EngineRun(New(vs), validators, ops[..n]);
      match ops[n]
      case AttachTo(id, rid) =>
        if CanRun(vs, validators) { AttachInOrder(vs, s, id, rid); }
      case Call(tx) =>
        if CanRun(vs, validators) { EngineStepInOrder(vs, s, validators, tx); }
        if tx.id !in s.seen && SubmitCheck(s, tx).None? {
          if CanRun(vs, validators) {
            AcceptedIsConfirmed(s, validators, tx);
          } else {
            UnusableEngineRejects(s, validators, tx);
          }
        }
    }
  }

  lemma AttachInOrder(vs: map<string, Validator>, s: LedgerState, id: string, rid: string)
    requires Wf(s) && RoundsInOrder(vs, s)
    ensures RoundsInOrder(vs, Attach(s, id, rid))
  {
    var r := Attach(s, id, rid);
    forall i | 0 <= i < |s.allTxs|
      ensures NumberedAt(vs, r.allTxs, i)
    {
      assert NumberedAt(vs, s.allTxs, i);
      AttachNumbered(vs, s, id, rid, i);
    }
    forall v <- vs { AttachSenders(s, id, rid, |s.allTxs|, v); }
    assert s.allTxs[..|s.allTxs|] == s.allTxs && r.allTxs[..|s.allTxs|] == r.allTxs;
  }

  lemma AttachSenders(s: LedgerState, id: string, rid: string, n: nat, v: string)
    requires Wf(s) && n <= |s.allTxs|
    ensures |Attach(s, id, rid).allTxs| == |s.allTxs|
    ensures SentBy(Attach(s, id, rid).allTxs[..n], v) == SentBy(s.allTxs[..n], v)
  {
    SameSenders(s.allTxs[..n], Attach(s, id, rid).allTxs[..n], v);
  }

  lemma AttachNumbered(vs: map<string, Validator>, s: LedgerState, id: string, rid: string, i: nat)
    requires Wf(s) && i < |s.allTxs| && NumberedAt(vs, s.allTxs, i)
    ensures |Attach(s, id, rid).allTxs| == |s.allTxs| && NumberedAt(vs, Attach(s, id, rid).allTxs, i)
  {
    AttachSenders(s, id, rid, i + 1, s.allTxs[i].from);
  }

  lemma {:induction false} SameSenders(a: seq<Transaction>, b: seq<Transaction>, v: string)
    requires |a| == |b| && forall i | 0 <= i < |a| :: a[i].from == b[i].from
    ensures SentBy(a, v) == SentBy(b, v)
  {
    if a != [] { SameSenders(a[..|a| - 1], b[..|b| - 1], v); }
  }
}
