/**
 What a follower's ledger becomes when it handles messages broadcast by one proposer, in order and
 without loss, or dropped, delayed, reordered and duplicated.
 */
module Replication {
  import opened Base
  import opened LedgerModel
  import opened LedgerRuns
  import opened NodeModel

  /** A follower that starts at s and handles msgs in order. */
  function Fold(s: LedgerState, msgs: seq<Message>): (r: LedgerState)
    requires Wf(s)
    ensures Wf(r)
  {
    if msgs == [] then s else Handle(Fold(s, msgs[..|msgs| - 1]), msgs[|msgs| - 1])
  }

  predicate SameTerms(a: Transaction, b: Transaction) {
    a.id == b.id && a.from == b.from && a.to == b.to && a.amount == b.amount && a.currency == b.currency
  }

  ghost predicate SameBalances(a: map<string, Validator>, b: map<string, Validator>) {
    forall v, c :: Balance(a, v, c) == Balance(b, v, c)
  }

  /** The transaction most recently proposed under an ID. */
  function Proposed(msgs: seq<Message>, id: string): Option<Transaction> {
    if msgs == [] then None
    else
      var m := msgs[|msgs| - 1];
      if m.Proposal? && m.tx.id == id then Some(m.tx) else Proposed(msgs[..|msgs| - 1], id)
  }

  /** Initial balances with exactly the commits in msgs applied, in order. */
  function Replayed(vs: map<string, Validator>, msgs: seq<Message>): (r: map<string, Validator>)
    ensures r.Keys == vs.Keys
  {
    if msgs == [] then vs
    else
      var before := Replayed(vs, msgs[..|msgs| - 1]);
      var m := msgs[|msgs| - 1];
      if !m.CommitMsg? then before
      else
        match Proposed(msgs[..|msgs| - 1], m.id)
        case None => before
        case Some(tx) => if KnownParties(before, tx) then Transfer(before, tx) else before
  }

  /** One entry of a proposer's broadcast log: a fresh payable proposal, or the commit right after its proposal. */
  ghost predicate SoundAt(vs: map<string, Validator>, log: seq<Message>, k: nat)
    requires k < |log|
  {
    match log[k]
    case Proposal(target, tx, _) =>
      && target == tx.id && KnownParties(vs, tx)
      && Balance(Replayed(vs, log[..k]), tx.from, tx.currency) >= tx.amount
      && forall j | 0 <= j < k :: log[j].Proposal? ==> log[j].tx.id != tx.id
    case CommitMsg(id, _) => k > 0 && log[k - 1].Proposal? && log[k - 1].tx.id == id
    case VoteMsg(_, _, _) => false
  }

  ghost predicate Sound(vs: map<string, Validator>, log: seq<Message>) {
    forall k | 0 <= k < |log| :: SoundAt(vs, log, k)
  }

  lemma TransferSame(a: map<string, Validator>, b: map<string, Validator>, t: Transaction, u: Transaction)
    requires SameBalances(a, b) && SameTerms(t, u) && KnownParties(a, t) && KnownParties(b, u)
    ensures SameBalances(Transfer(a, t), Transfer(b, u))
  {
    forall v, c { TransferSameAt(a, b, t, u, v, c); }
  }

  lemma TransferSameAt(a: map<string, Validator>, b: map<string, Validator>, t: Transaction, u: Transaction, v: string,
                       c: string)
    requires SameBalances(a, b) && SameTerms(t, u) && KnownParties(a, t) && KnownParties(b, u)
    ensures Balance(Transfer(a, t), v, c) == Balance(Transfer(b, u), v, c)
  {
    TransferEffect(a, t, v, c);
    TransferEffect(b, u, v, c);
  }

  // ----- In order, without loss -----

  /** A follower that has handled exactly log[..k]. Dead pending entries of rejected proposals are tolerated. */
  ghost predicate FollowerAt(vs: map<string, Validator>, log: seq<Message>, k: nat, f: LedgerState)
    requires k <= |log|
  {
    && Wf(f) && f.validators.Keys == vs.Keys
    && SameBalances(f.validators, Replayed(vs, log[..k]))
    && (forall id <- f.seen :: exists j :: 0 <= j < k && log[j].Proposal? && log[j].tx.id == id)
    && (k > 0 && log[k - 1].Proposal? ==>
          log[k - 1].tx.id in f.pending && SameTerms(f.allTxs[f.pending[log[k - 1].tx.id]], log[k - 1].tx))
  }

  lemma FollowerAccepts(vs: map<string, Validator>, log: seq<Message>, k: nat, f: LedgerState)
    requires Sound(vs, log) && k < |log| && FollowerAt(vs, log, k, f) && log[k].Proposal?
    ensures FollowerAt(vs, log, k + 1, Handle(f, log[k]))
    ensures Answer(f, log[k]) == Some(true)
  {
    assert SoundAt(vs, log, k);
    var tx := log[k].tx;
    assert log[..k + 1][..k] == log[..k];
    assert tx.id !in f.seen;
    assert SubmitCheck(f, tx).None?;
    AcceptedShape(f, tx);
    forall id <- f.seen + {tx.id}
      ensures exists j :: 0 <= j < k + 1 && log[j].Proposal? && log[j].tx.id == id
    {
      if id == tx.id {
        assert log[k].Proposal? && log[k].tx.id == id;
      } else {
        var j :| 0 <= j < k && log[j].Proposal? && log[j].tx.id == id;
        assert j < k + 1;
      }
    }
  }

  lemma AcceptedShape(f: LedgerState, tx: Transaction)
    requires Wf(f) && tx.id !in f.seen && SubmitCheck(f, tx).None?
    ensures var r := Submit(f, tx);
            && r.pending == f.pending[tx.id := |f.allTxs|] && r.seen == f.seen + {tx.id} && r.confirmed == f.confirmed
            && |r.allTxs| == |f.allTxs| + 1 && SameTerms(r.allTxs[|f.allTxs|], tx)
            && r.validators.Keys == f.validators.Keys && SameBalances(r.validators, f.validators)
            && Vote(r, tx.id) == Some(true)
  {
  }

  /** The commit right after its proposal transfers the proposed amount. */
  lemma CommitReplays(vs: map<string, Validator>, log: seq<Message>, k: nat)
    requires 0 < k < |log| && log[k].CommitMsg? && log[k - 1].Proposal? && log[k - 1].tx.id == log[k].id
    requires KnownParties(vs, log[k - 1].tx)
    ensures Replayed(vs, log[..k + 1]) == Transfer(Replayed(vs, log[..k]), log[k - 1].tx)
  {
    assert log[..k + 1][..k] == log[..k];
    assert Proposed(log[..k], log[k].id) == Some(log[k - 1].tx);
  }

  /** Applying a commit to a ledger with the same balances and terms gives the same balances. */
  lemma CommitMirrors(s: LedgerState, id: string, vs: map<string, Validator>, tx: Transaction)
    requires Wf(s) && id in s.pending && SameBalances(s.validators, vs) && s.validators.Keys == vs.Keys
    requires SameTerms(s.allTxs[s.pending[id]], tx) && Balance(vs, tx.from, tx.currency) >= tx.amount
    ensures CommitCheck(s, id) == Committed && KnownParties(vs, tx)
    ensures Commit(s, id).validators.Keys == s.validators.Keys && Commit(s, id).seen == s.seen
    ensures SameBalances(Commit(s, id).validators, Transfer(vs, tx))
  {
    TransferSame(s.validators, vs, s.allTxs[s.pending[id]], tx);
  }

  lemma FollowerCommits(vs: map<string, Validator>, log: seq<Message>, k: nat, f: LedgerState)
    requires Sound(vs, log) && k < |log| && FollowerAt(vs, log, k, f) && log[k].CommitMsg?
    ensures FollowerAt(vs, log, k + 1, Handle(f, log[k]))
    ensures CommitCheck(f, log[k].id) == Committed
  {
    assert SoundAt(vs, log, k) && SoundAt(vs, log, k - 1);
    var id, tx := log[k].id, log[k - 1].tx;
    assert log[..k][..k - 1] == log[..k - 1];
    assert Replayed(vs, log[..k]) == Replayed(vs, log[..k - 1]);
    CommitReplays(vs, log, k);
    CommitMirrors(f, id, Replayed(vs, log[..k]), tx);
    forall i <- Handle(f, log[k]).seen
      ensures exists j :: 0 <= j < k + 1 && log[j].Proposal? && log[j].tx.id == i
    {
      var j :| 0 <= j < k && log[j].Proposal? && log[j].tx.id == i;
      assert j < k + 1;
    }
  }

  /** After log[..j], the follower votes yes on a proposal and applies a commit. */
  ghost predicate SmoothAt(vs: map<string, Validator>, log: seq<Message>, j: nat)
    requires j < |log|
  {
    var f := Fold(New(vs), log[..j]);
    match log[j]
    case Proposal(_, _, _) => Answer(f, log[j]) == Some(true)
    case CommitMsg(id, _) => CommitCheck(f, id) == Committed
    case VoteMsg(_, _, _) => false
  }

  lemma FollowerStep(vs: map<string, Validator>, log: seq<Message>, k: nat)
    requires Sound(vs, log) && k < |log| && FollowerAt(vs, log, k, Fold(New(vs), log[..k]))
    ensures FollowerAt(vs, log, k + 1, Fold(New(vs), log[..k + 1]))
    ensures SmoothAt(vs, log, k)
  {
    var f := Fold(New(vs), log[..k]);
    assert log[..k + 1][..k] == log[..k];
    assert Fold(New(vs), log[..k + 1]) == Handle(f, log[k]);
    assert SoundAt(vs, log, k);
    if log[k].Proposal? { FollowerAccepts(vs, log, k, f); } else { FollowerCommits(vs, log, k, f); }
  }

  /**
   Prefix agreement: having handled any prefix of a sound log, a follower's balances are the initial ones
   with exactly that prefix's commits applied.
   */
  lemma {:induction false} PrefixAgreement(vs: map<string, Validator>, log: seq<Message>, k: nat)
    requires Sound(vs, log) && k <= |log|
    ensures FollowerAt(vs, log, k, Fold(New(vs), log[..k]))
  {
    if k == 0 {
      FollowerStart(vs, log);
    } else {
      PrefixAgreement(vs, log, k - 1);
      FollowerStep(vs, log, k - 1);
    }
  }

  /** No proposal and no commit of a sound log ever fails at a follower that handles it in order. */
  lemma NothingFailsInOrder(vs: map<string, Validator>, log: seq<Message>, j: nat)
    requires Sound(vs, log) && j < |log|
    ensures SmoothAt(vs, log, j)
  {
    PrefixAgreement(vs, log, j);
    FollowerStep(vs, log, j);
  }

  lemma FollowerStart(vs: map<string, Validator>, log: seq<Message>)
    ensures FollowerAt(vs, log, 0, Fold(New(vs), log[..0]))
  {
    assert log[..0] == [];
  }

  // ----- Any order, with loss and duplication -----

  ghost predicate ProposedIn(log: seq<Message>, tx: Transaction) {
    exists m <- log :: m.Proposal? && SameTerms(m.tx, tx)
  }

  ghost predicate CommittedIn(log: seq<Message>, id: string) {
    exists m <- log :: m.CommitMsg? && m.id == id
  }

  /** Everything the follower recorded was proposed, and everything it confirmed was announced as committed. */
  ghost predicate CopiesOf(log: seq<Message>, f: LedgerState) {
    && (forall i | 0 <= i < |f.allTxs| :: ProposedIn(log, f.allTxs[i]))
    && (forall id <- f.confirmed :: CommittedIn(log, id))
  }

  lemma ProposedSameTerms(log: seq<Message>, a: Transaction, b: Transaction)
    requires ProposedIn(log, a) && SameTerms(a, b)
    ensures ProposedIn(log, b)
  {
    var m :| m in log && m.Proposal? && SameTerms(m.tx, a);
    assert SameTerms(m.tx, b);
  }

  /** Handling a message appends at most the proposed transaction and confirms at most the committed ID. */
  lemma HandleAdds(f: LedgerState, m: Message)
    requires Wf(f)
    ensures var r := Handle(f, m);
            && |f.allTxs| <= |r.allTxs| && (forall i | 0 <= i < |f.allTxs| :: SameTerms(f.allTxs[i], r.allTxs[i]))
            && (forall i | |f.allTxs| <= i < |r.allTxs| :: m.Proposal? && SameTerms(m.tx, r.allTxs[i]))
            && (forall id <- r.confirmed :: id in f.confirmed || (m.CommitMsg? && m.id == id))
  {
    match m
    case Proposal(_, tx, _) => SubmitAdds(f, tx);
    case CommitMsg(id, _) => CommitAdds(f, id);
    case _ =>
  }

  lemma SubmitAdds(f: LedgerState, tx: Transaction)
    requires Wf(f)
    ensures var r := SubmitIfAbsent(f, tx);
            && |f.allTxs| <= |r.allTxs| && (forall i | 0 <= i < |f.allTxs| :: r.allTxs[i] == f.allTxs[i])
            && (forall i | |f.allTxs| <= i < |r.allTxs| :: SameTerms(tx, r.allTxs[i]))
            && r.confirmed == f.confirmed
  {
  }

  lemma CommitAdds(f: LedgerState, id: string)
    requires Wf(f)
    ensures var r := Commit(f, id);
            && |r.allTxs| == |f.allTxs| && (forall i | 0 <= i < |f.allTxs| :: SameTerms(f.allTxs[i], r.allTxs[i]))
            && r.confirmed.Keys <= f.confirmed.Keys + {id}
  {
  }

  lemma HandleCopies(log: seq<Message>, f: LedgerState, m: Message)
    requires Wf(f) && CopiesOf(log, f) && m in log
    ensures CopiesOf(log, Handle(f, m))
  {
    HandleAdds(f, m);
    var r := Handle(f, m);
    forall i | 0 <= i < |r.allTxs|
      ensures ProposedIn(log, r.allTxs[i])
    {
      if i < |f.allTxs| {
        assert ProposedIn(log, f.allTxs[i]);
        ProposedSameTerms(log, f.allTxs[i], r.allTxs[i]);
      }
    }
    forall id <- r.confirmed
      ensures CommittedIn(log, id)
    {
      if id in f.confirmed { assert CommittedIn(log, id); }
    }
  }

  lemma HandleLifecycle(f: LedgerState, m: Message)
    requires Wf(f) && Lifecycle(f)
    ensures Lifecycle(Handle(f, m))
  {
    match m
    case Proposal(_, tx, _) => if tx.id !in f.seen { SubmitLifecycle(f, tx); }
    case CommitMsg(id, _) => if id in f.pending { CommitLifecycle(f, id); }
    case VoteMsg(_, _, _) =>
  }

  /** Whatever a follower handles from the log, in any order and any number of times, it only copies from
      the log and it keeps one history entry per ID. */
  lemma {:induction false} BadNetworkAgreement(vs: map<string, Validator>, log: seq<Message>, msgs: seq<Message>)
    requires forall m <- msgs :: m in log
    ensures CopiesOf(log, Fold(New(vs), msgs))
    ensures Lifecycle(Fold(New(vs), msgs))
  {
    if msgs != [] {
      var n := |msgs| - 1;
      BadNetworkAgreement(vs, log, msgs[..n]);
      HandleCopies(log, Fold(New(vs), msgs[..n]), msgs[n]);
      HandleLifecycle(Fold(New(vs), msgs[..n]), msgs[n]);
    }
  }

  /** A follower's balances are exactly the effect of what it confirmed, whatever it handled. */
  lemma {:induction false} FoldReconciles(vs: map<string, Validator>, msgs: seq<Message>, v: string, c: string)
    ensures Reconciled(vs, Fold(New(vs), msgs), v, c)
  {
    if msgs != [] {
      var n := |msgs| - 1;
      var f := Fold(New(vs), msgs[..n]);
      FoldReconciles(vs, msgs[..n], v, c);
      HandleReconciles(vs, f, msgs[n], v, c);
    }
  }

  lemma HandleReconciles(vs: map<string, Validator>, f: LedgerState, m: Message, v: string, c: string)
    requires Wf(f) && Reconciled(vs, f, v, c)
    ensures Reconciled(vs, Handle(f, m), v, c)
  {
    match m
    case Proposal(_, tx, _) => StepKeepsReconciled(vs, f, OpSubmitIfAbsent(tx), v, c);
    case CommitMsg(id, _) => StepKeepsReconciled(vs, f, OpCommit(id), v, c);
    case VoteMsg(_, _, _) =>
  }

  /** In a sound log an ID is proposed once. */
  lemma SoundUnique(vs: map<string, Validator>, log: seq<Message>, p: Message, q: Message)
    requires Sound(vs, log) && p in log && q in log && p.Proposal? && q.Proposal? && p.tx.id == q.tx.id
    ensures p == q
  {
    var i :| 0 <= i < |log| && log[i] == p;
    var j :| 0 <= j < |log| && log[j] == q;
    assert SoundAt(vs, log, i) && SoundAt(vs, log, j);
  }
}
