/**
 One proposer and its followers joined by message queues, as a transition system.  Every label of a run
 is one atomic step of a node or of the network; a label that is not enabled changes nothing, so a run
 is any sequence of labels.
 */
module Protocol {
  import opened Base
  import opened LedgerModel
  import opened LedgerRuns
  import opened EngineModel
  import opened NodeModel
  import opened Replication

  /** Initial ledger of every node, the proposer's ID, the other nodes, and the length of the validator list. */
  datatype Config = Config(vs: map<string, Validator>, self: string, followers: set<string>, n: nat)

  /** How a transaction was confirmed: whose yes votes were counted, how many, and how many of them repeated. */
  datatype Tally = Tally(voters: set<string>, yes: nat, repeats: nat)

  /** `outbox` is a commit that the proposer has applied and not yet broadcast. */
  datatype System = System(
    proposer: Proposer,
    followers: map<string, LedgerState>,
    inbox: map<string, seq<Message>>,
    mailbox: seq<Message>,
    outbox: Option<Message>,
    // history, never read by a node:
    log: seq<Message>,
    delivered: map<string, seq<Message>>,
    castYes: set<(string, string)>,
    backing: map<string, Tally>)

  datatype Label =
    | Start(tx: Transaction, target: string)
    | ProposerTakes(k: nat)
    | End
    | Tell
    | FollowerTakes(f: string, k: nat)
    | LoseAt(f: string, k: nat)
    | CopyAt(f: string, k: nat)
    | LoseVote(k: nat)
    | CopyVote(k: nat)

  function RemoveAt<T>(q: seq<T>, k: nat): seq<T>
    requires k < |q|
  {
    q[..k] + q[k + 1..]
  }

  ghost predicate Ok(c: Config, s: System) {
    && Wf(s.proposer.ledger)
    && s.followers.Keys == s.inbox.Keys == s.delivered.Keys == c.followers
    && forall f <- c.followers :: Wf(s.followers[f])
  }

  function Init(c: Config): (s: System)
    ensures Ok(c, s)
  {
    System(Proposer(New(c.vs), Idle, map[]), map f | f in c.followers :: New(c.vs),
           map f | f in c.followers :: [], [], None, [], map f | f in c.followers :: [], {}, map[])
  }

  /** Append a broadcast message to every follower's queue. */
  function Broadcast(s: System, m: Option<Message>): System {
    if m.None? then s
    else s.(inbox := map f | f in s.inbox :: s.inbox[f] + [m.value], log := s.log + [m.value])
  }

  /** Fresh IDs, as every caller uses: a proposal may start only when the last one is over. */
  ghost predicate CanStart(s: System, tx: Transaction, target: string)
    requires Wf(s.proposer.ledger)
  {
    && s.proposer.phase.Idle? && s.outbox.None?
    && tx.id !in s.proposer.ledger.seen
    && target in Submit(s.proposer.ledger, tx).pending
  }

  ghost predicate Enabled(s: System, l: Label)
    requires Wf(s.proposer.ledger)
  {
    match l
    case Start(tx, target) => CanStart(s, tx, target)
    case ProposerTakes(k) => s.proposer.phase.Collecting? && k < |s.mailbox|
    case End => s.proposer.phase.Collecting?
    case Tell => s.outbox.Some?
    case FollowerTakes(f, k) => f in s.inbox && k < |s.inbox[f]|
    case LoseAt(f, k) => f in s.inbox && k < |s.inbox[f]|
    case CopyAt(f, k) => f in s.inbox && k < |s.inbox[f]|
    case LoseVote(k) => k < |s.mailbox|
    case CopyVote(k) => k < |s.mailbox|
  }

  function StartStep(c: Config, s: System, tx: Transaction, target: string): (r: System)
    requires Ok(c, s) && s.proposer.phase.Idle?
    ensures Ok(c, r)
  {
    var (p, m) := Begin(s.proposer, c.self, tx, target);
    var yes := if p.phase.Collecting? && c.self in p.phase.yesVoters then {(c.self, tx.id)} else {};
    Announce(c, s, s.(proposer := p, castYes := s.castYes + yes), m)
  }

  /** Broadcast once the proposer has moved. */
  function Announce(c: Config, s: System, t: System, m: Option<Message>): (r: System)
    requires Ok(c, s) && t == s.(proposer := t.proposer, outbox := t.outbox, castYes := t.castYes)
    requires Wf(t.proposer.ledger)
    ensures Ok(c, r) && r == Broadcast(t, m)
  {
    Broadcast(t, m)
  }

  /** The round ends in a local commit or a cleanup; a commit is broadcast in a step of its own. */
  function EndStep(c: Config, s: System): (r: System)
    requires Ok(c, s) && s.proposer.phase.Collecting?
    ensures Ok(c, r)
  {
    var ph := s.proposer.phase;
    var (p, m) := Finish(s.proposer, c.n);
    var backing := if m.Some? then s.backing[ph.id := Tally(ph.yesVoters, ph.yesVotes, ph.repeats)] else s.backing;
    s.(proposer := p, outbox := m, backing := backing)
  }

  function TellStep(c: Config, s: System): (r: System)
    requires Ok(c, s)
    ensures Ok(c, r)
  {
    Announce(c, s, s.(outbox := None), s.outbox)
  }

  /** A follower takes message k out of its queue and handles it. */
  function Delivered(c: Config, s: System, f: string, k: nat): (r: System)
    requires Ok(c, s) && f in s.inbox && k < |s.inbox[f]|
    ensures Ok(c, r)
  {
    var m := s.inbox[f][k];
    s.(followers := s.followers[f := Handle(s.followers[f], m)],
       inbox := s.inbox[f := RemoveAt(s.inbox[f], k)],
       delivered := s.delivered[f := s.delivered[f] + [m]])
  }

  /** A vote travels to the proposer's mailbox. */
  function WithVote(s: System, id: string, f: string, vote: Option<bool>): System {
    if vote.None? then s
    else s.(mailbox := s.mailbox + [VoteMsg(id, f, vote.value)],
            castYes := s.castYes + if vote.value then {(f, id)} else {})
  }

  function FollowerStepAt(c: Config, s: System, f: string, k: nat): (r: System)
    requires Ok(c, s) && f in s.inbox && k < |s.inbox[f]|
    ensures Ok(c, r)
  {
    var m := s.inbox[f][k];
    WithVote(Delivered(c, s, f, k), TxID(m), f, Answer(s.followers[f], m))
  }

  /** A round that has heard enough leaves further messages in the mailbox. */
  function ProposerStepAt(c: Config, s: System, k: nat): (r: System)
    requires Ok(c, s) && s.proposer.phase.Collecting? && k < |s.mailbox|
    ensures Ok(c, r)
  {
    if s.proposer.phase.collected >= c.n - 1 then s
    else s.(proposer := Receive(s.proposer, s.mailbox[k]), mailbox := RemoveAt(s.mailbox, k))
  }

  function WithInbox(c: Config, s: System, f: string, q: seq<Message>): (r: System)
    requires Ok(c, s) && f in s.inbox
    ensures Ok(c, r)
  {
    s.(inbox := s.inbox[f := q])
  }

  predicate OfNetwork(l: Label) { l.LoseAt? || l.CopyAt? || l.LoseVote? || l.CopyVote? }

  /** The network loses or copies a message in flight. */
  ghost function NetworkStep(c: Config, s: System, l: Label): (r: System)
    requires Ok(c, s) && Enabled(s, l) && OfNetwork(l)
    ensures Ok(c, r)
  {
    match l
    case LoseAt(f, k) => WithInbox(c, s, f, RemoveAt(s.inbox[f], k))
    case CopyAt(f, k) => WithInbox(c, s, f, s.inbox[f] + [s.inbox[f][k]])
    case LoseVote(k) => s.(mailbox := RemoveAt(s.mailbox, k))
    case CopyVote(k) => s.(mailbox := s.mailbox + [s.mailbox[k]])
  }

  /** A node takes its next step. */
  ghost function NodeStep(c: Config, s: System, l: Label): (r: System)
    requires Ok(c, s) && Enabled(s, l) && !OfNetwork(l)
    ensures Ok(c, r)
  {
    match l
    case Start(tx, target) => StartStep(c, s, tx, target)
    case ProposerTakes(k) => ProposerStepAt(c, s, k)
    case End => EndStep(c, s)
    case Tell => TellStep(c, s)
    case FollowerTakes(f, k) => FollowerStepAt(c, s, f, k)
  }

  ghost function Next(c: Config, s: System, l: Label): (r: System)
    requires Ok(c, s)
    ensures Ok(c, r)
  {
    if !Enabled(s, l) then s
    else if OfNetwork(l) then NetworkStep(c, s, l)
    else NodeStep(c, s, l)
  }

  ghost function Run(c: Config, labels: seq<Label>): (s: System)
    ensures Ok(c, s)
  {
    if labels == [] then Init(c) else Next(c, Run(c, labels[..|labels| - 1]), labels[|labels| - 1])
  }

  // ----- The proposer's own invariant, on any network -----

  /** The proposer's ledger and its log tell the same story; at most its current transaction is pending. */
  ghost predicate ProposerOk(vs: map<string, Validator>, log: seq<Message>, p: Proposer) {
    && Wf(p.ledger) && p.ledger.validators.Keys == vs.Keys
    && Sound(vs, log)
    && SameBalances(p.ledger.validators, Replayed(vs, log))
    && (forall m <- log :: m.Proposal? ==> m.tx.id in p.ledger.seen)
    && (forall m <- log :: m.CommitMsg? ==> m.id in p.ledger.confirmed)
    && (forall id <- p.ledger.confirmed :: ProposedIn(log, p.ledger.allTxs[p.ledger.confirmed[id]]))
    && (p.phase.Idle? ==> p.ledger.pending == map[])
    && (p.phase.Collecting? ==> InRound(log, p))
  }

  ghost predicate InRound(log: seq<Message>, p: Proposer)
    requires p.phase.Collecting? && Wf(p.ledger)
  {
    var id := p.phase.id;
    && p.ledger.pending.Keys == {id}
    && Vote(p.ledger, id) == Some(true)
    && log != [] && log[|log| - 1].Proposal? && log[|log| - 1].tx.id == id
    && SameTerms(log[|log| - 1].tx, p.ledger.allTxs[p.ledger.pending[id]])
  }

  lemma ProposedGrows(log: seq<Message>, m: Message, tx: Transaction)
    requires ProposedIn(log, tx)
    ensures ProposedIn(log + [m], tx)
  {
    var p :| p in log && p.Proposal? && SameTerms(p.tx, tx);
    assert p in log + [m];
  }

  /** r is s with the transaction id recorded on top, balances and confirmations untouched. */
  ghost predicate Recorded(s: LedgerState, r: LedgerState, id: string) {
    && r.validators.Keys == s.validators.Keys
    && SameBalances(r.validators, s.validators)
    && r.seen == s.seen + {id} && r.confirmed == s.confirmed
    && (forall i | 0 <= i < |s.allTxs| :: i < |r.allTxs| && r.allTxs[i] == s.allTxs[i])
  }

  /** With nothing else pending, a fresh accepted transaction is the only pending one, and it can be paid. */
  lemma SubmitShape(s: LedgerState, tx: Transaction)
    requires Wf(s) && s.pending == map[] && tx.id !in s.seen && SubmitCheck(s, tx).None?
    ensures var r := Submit(s, tx);
            && Recorded(s, r, tx.id)
            && r.pending == map[tx.id := |s.allTxs|] && |r.allTxs| == |s.allTxs| + 1
            && SameTerms(r.allTxs[|s.allTxs|], tx)
            && Vote(r, tx.id) == Some(true)
  {
  }

  lemma CleanupShape(s: LedgerState, tx: Transaction)
    requires Wf(s) && s.pending == map[] && tx.id !in s.seen && SubmitCheck(s, tx).None?
    ensures var r := Cleanup(Submit(s, tx), tx.id); Recorded(s, r, tx.id) && r.pending == map[]
  {
    SubmitShape(s, tx);
  }

  /** A round that has just begun: its transaction alone is pending, payable, and named in the proposal. */
  ghost predicate Opened(q: Proposer, m: Option<Message>, tx: Transaction)
    requires Wf(q.ledger)
  {
    && q.phase.Collecting? && q.phase.id == tx.id && q.ledger.pending.Keys == {tx.id}
    && Vote(q.ledger, tx.id) == Some(true)
    && m.Some? && m.value.Proposal? && m.value.target == tx.id
    && m.value.tx == q.ledger.allTxs[q.ledger.pending[tx.id]]
    && SameTerms(m.value.tx, tx)
  }

  /** A fresh, accepted proposal: the only pending transaction is the one proposed, and the proposer votes yes. */
  lemma BeginShape(p: Proposer, self: string, tx: Transaction, target: string)
    requires Wf(p.ledger) && p.phase.Idle? && p.ledger.pending == map[]
    requires tx.id !in p.ledger.seen && SubmitCheck(p.ledger, tx).None? && target in Submit(p.ledger, tx).pending
    ensures target == tx.id
    ensures var (q, m) := Begin(p, self, tx, target);
            && Recorded(p.ledger, q.ledger, tx.id)
            && (self !in p.ledger.validators ==> m.None? && q.phase.Idle? && q.ledger.pending == map[])
            && (self in p.ledger.validators ==> Opened(q, m, tx))
  {
    SubmitShape(p.ledger, tx);
    CleanupShape(p.ledger, tx);
  }

  ghost function Logged(log: seq<Message>, m: Option<Message>): seq<Message> {
    if m.None? then log else log + [m.value]
  }

  lemma SoundExtends(vs: map<string, Validator>, log: seq<Message>, m: Message)
    requires Sound(vs, log) && SoundAt(vs, log + [m], |log|)
    ensures Sound(vs, log + [m])
  {
    forall k | 0 <= k < |log|
      ensures SoundAt(vs, log + [m], k)
    {
      assert SoundAt(vs, log, k);
      assert (log + [m])[..k] == log[..k];
    }
  }

  lemma BeginOk(vs: map<string, Validator>, log: seq<Message>, p: Proposer, self: string, tx: Transaction,
                target: string)
    requires ProposerOk(vs, log, p) && p.phase.Idle?
    requires tx.id !in p.ledger.seen && target in Submit(p.ledger, tx).pending
    ensures var (q, m) := Begin(p, self, tx, target); ProposerOk(vs, Logged(log, m), q)
  {
    if SubmitCheck(p.ledger, tx).None? {
      BeginShape(p, self, tx, target);
      var (q, m) := Begin(p, self, tx, target);
      RecordedProposals(log, p.ledger, q.ledger, tx.id);
      if self in p.ledger.validators {
        OpenedOk(vs, log, p, q, m.value, tx);
      } else {
        RefusedOk(vs, log, p, q, tx.id);
      }
    }
  }

  /** Recording a transaction leaves every confirmed one, and so its proposal, where it was. */
  lemma RecordedProposals(log: seq<Message>, s: LedgerState, r: LedgerState, id: string)
    requires Wf(s) && Wf(r) && Recorded(s, r, id)
    requires forall x <- s.confirmed :: ProposedIn(log, s.allTxs[s.confirmed[x]])
    ensures forall x <- r.confirmed :: ProposedIn(log, r.allTxs[r.confirmed[x]])
  {
  }

  /** A round that ended before its proposal was sent. */
  lemma RefusedOk(vs: map<string, Validator>, log: seq<Message>, p: Proposer, q: Proposer, id: string)
    requires ProposerOk(vs, log, p) && Wf(q.ledger) && Recorded(p.ledger, q.ledger, id)
    requires q.phase.Idle? && q.ledger.pending == map[]
    requires forall x <- q.ledger.confirmed :: ProposedIn(log, q.ledger.allTxs[q.ledger.confirmed[x]])
    ensures ProposerOk(vs, log, q)
  {
  }

  lemma OpenedOk(vs: map<string, Validator>, log: seq<Message>, p: Proposer, q: Proposer, m: Message, tx: Transaction)
    requires ProposerOk(vs, log, p) && Wf(q.ledger) && Recorded(p.ledger, q.ledger, tx.id)
    requires tx.id !in p.ledger.seen && Opened(q, Some(m), tx)
    requires forall x <- q.ledger.confirmed :: ProposedIn(log, q.ledger.allTxs[q.ledger.confirmed[x]])
    ensures ProposerOk(vs, log + [m], q)
  {
    BeginSound(vs, log, p, q.ledger, m);
    forall x <- q.ledger.confirmed
      ensures ProposedIn(log + [m], q.ledger.allTxs[q.ledger.confirmed[x]])
    {
      ProposedGrows(log, m, q.ledger.allTxs[q.ledger.confirmed[x]]);
    }
    assert InRound(log + [m], q);
  }

  lemma BeginSound(vs: map<string, Validator>, log: seq<Message>, p: Proposer, q: LedgerState, m: Message)
    requires ProposerOk(vs, log, p) && Wf(q)
    requires m.Proposal? && m.target == m.tx.id && m.tx.id !in p.ledger.seen && KnownParties(vs, m.tx)
    requires SameBalances(q.validators, p.ledger.validators)
             && Balance(q.validators, m.tx.from, m.tx.currency) >= m.tx.amount
    ensures Sound(vs, log + [m])
    ensures SameBalances(q.validators, Replayed(vs, log + [m]))
  {
    assert (log + [m])[..|log|] == log;
    assert Replayed(vs, log + [m]) == Replayed(vs, log);
    assert SoundAt(vs, log + [m], |log|);
    SoundExtends(vs, log, m);
  }

  /** At the end of a round the local commit cannot fail, so the outcome is decided by the votes alone. */
  lemma FinishOk(vs: map<string, Validator>, log: seq<Message>, p: Proposer, n: nat)
    requires ProposerOk(vs, log, p) && p.phase.Collecting?
    ensures var (q, m) := Finish(p, n);
            && ProposerOk(vs, Logged(log, m), q)
            && (m.Some? <==> Majority(p.phase.yesVotes, n))
            && (m.Some? ==> m.value.CommitMsg? && m.value.id == p.phase.id)
            && q.ledger.confirmed.Keys == p.ledger.confirmed.Keys + (if m.Some? then {p.phase.id} else {})
            && q.phase.Idle? && q.buffer == p.buffer
  {
    var (q, m) := Finish(p, n);
    if m.Some? {
      CommitOk(vs, log, p, q, m.value);
      CommitShape(p.ledger, p.phase.id);
    } else {
      assert q.ledger == Cleanup(p.ledger, p.phase.id);
      CleanedOk(vs, log, p, q);
    }
  }

  /** A round that found no majority. */
  lemma CleanedOk(vs: map<string, Validator>, log: seq<Message>, p: Proposer, q: Proposer)
    requires ProposerOk(vs, log, p) && p.phase.Collecting?
    requires q == Proposer(Cleanup(p.ledger, p.phase.id), Idle, p.buffer)
    ensures ProposerOk(vs, log, q) && q.ledger.confirmed == p.ledger.confirmed
  {
    TotalAddNonce(p.ledger.validators, p.ledger.allTxs[p.ledger.pending[p.phase.id]].from, -1);
  }

  lemma CommitOk(vs: map<string, Validator>, log: seq<Message>, p: Proposer, q: Proposer, m: Message)
    requires ProposerOk(vs, log, p) && p.phase.Collecting?
    requires q == Proposer(Commit(p.ledger, p.phase.id), Idle, p.buffer)
    requires m == CommitMsg(p.phase.id, p.phase.round)
    ensures ProposerOk(vs, log + [m], q)
  {
    CommitBalances(vs, log, p, m);
    CommitProposed(log, p, m);
    CommitSound(vs, log, m);
    CommitShape(p.ledger, p.phase.id);
    CommittedOk(vs, log, p, q, m);
  }

  lemma CommitShape(s: LedgerState, id: string)
    requires Wf(s) && s.pending.Keys == {id} && CommitCheck(s, id) == Committed
    ensures var r := Commit(s, id);
            r.seen == s.seen && r.pending == map[] && r.confirmed.Keys == s.confirmed.Keys + {id}
  {
  }

  lemma CommittedOk(vs: map<string, Validator>, log: seq<Message>, p: Proposer, q: Proposer, m: Message)
    requires ProposerOk(vs, log, p) && Wf(q.ledger) && q.phase.Idle? && m.CommitMsg?
    requires q.ledger.validators.Keys == vs.Keys && SameBalances(q.ledger.validators, Replayed(vs, log + [m]))
    requires Sound(vs, log + [m]) && q.ledger.seen == p.ledger.seen && q.ledger.pending == map[]
    requires q.ledger.confirmed.Keys == p.ledger.confirmed.Keys + {m.id}
    requires forall x <- q.ledger.confirmed :: ProposedIn(log + [m], q.ledger.allTxs[q.ledger.confirmed[x]])
    ensures ProposerOk(vs, log + [m], q)
  {
  }

  lemma CommitSound(vs: map<string, Validator>, log: seq<Message>, m: Message)
    requires Sound(vs, log) && log != [] && m.CommitMsg? && log[|log| - 1].Proposal? && log[|log| - 1].tx.id == m.id
    ensures Sound(vs, log + [m])
  {
    assert SoundAt(vs, log + [m], |log|);
    SoundExtends(vs, log, m);
  }

  lemma CommitBalances(vs: map<string, Validator>, log: seq<Message>, p: Proposer, m: Message)
    requires ProposerOk(vs, log, p) && p.phase.Collecting? && m.CommitMsg? && m.id == p.phase.id
    ensures var r := Commit(p.ledger, m.id).validators;
            r.Keys == vs.Keys && SameBalances(r, Replayed(vs, log + [m]))
  {
    var last := log[|log| - 1];
    LastIsKnown(vs, log);
    ReplayedCommit(vs, log, m, last.tx);
    CommitTransfers(p.ledger, m.id, Replayed(vs, log), last.tx);
  }

  lemma CommitTransfers(s: LedgerState, id: string, vs: map<string, Validator>, tx: Transaction)
    requires Wf(s) && CommitCheck(s, id) == Committed && SameBalances(s.validators, vs)
    requires SameTerms(s.allTxs[s.pending[id]], tx) && KnownParties(vs, tx)
    ensures Commit(s, id).validators.Keys == s.validators.Keys
    ensures SameBalances(Commit(s, id).validators, Transfer(vs, tx))
  {
    TransferSame(s.validators, vs, s.allTxs[s.pending[id]], tx);
  }

  lemma LastIsKnown(vs: map<string, Validator>, log: seq<Message>)
    requires Sound(vs, log) && log != [] && log[|log| - 1].Proposal?
    ensures KnownParties(vs, log[|log| - 1].tx)
  {
    assert SoundAt(vs, log, |log| - 1);
  }

  lemma ReplayedCommit(vs: map<string, Validator>, log: seq<Message>, m: Message, tx: Transaction)
    requires log != [] && m.CommitMsg? && log[|log| - 1].Proposal? && log[|log| - 1].tx == tx && tx.id == m.id
    requires KnownParties(vs, tx)
    ensures Replayed(vs, log + [m]) == Transfer(Replayed(vs, log), tx)
  {
    assert (log + [m])[..|log|] == log;
    assert Proposed(log, m.id) == Some(tx);
  }

  lemma CommitProposed(log: seq<Message>, p: Proposer, m: Message)
    requires Wf(p.ledger) && p.phase.Collecting? && InRound(log, p)
    requires forall id <- p.ledger.confirmed :: ProposedIn(log, p.ledger.allTxs[p.ledger.confirmed[id]])
    ensures var q := Commit(p.ledger, p.phase.id);
            forall id <- q.confirmed :: ProposedIn(log + [m], q.allTxs[q.confirmed[id]])
  {
    var q := Commit(p.ledger, p.phase.id);
    forall id <- q.confirmed
      ensures ProposedIn(log + [m], q.allTxs[q.confirmed[id]])
    {
      if id == p.phase.id {
        assert SameTerms(log[|log| - 1].tx, q.allTxs[q.confirmed[id]]);
        assert log[|log| - 1] in log;
        ProposedGrows(log, m, q.allTxs[q.confirmed[id]]);
      } else {
        assert q.allTxs[q.confirmed[id]] == p.ledger.allTxs[p.ledger.confirmed[id]];
        ProposedGrows(log, m, q.allTxs[q.confirmed[id]]);
      }
    }
  }

  // ----- Followers, on any network -----

  /** A follower is exactly what handling its delivered messages makes it, and all its messages are logged. */
  ghost predicate Mirrors(vs: map<string, Validator>, log: seq<Message>, f: LedgerState, delivered: seq<Message>,
                          inbox: seq<Message>) {
    && f == Fold(New(vs), delivered)
    && (forall m <- delivered :: m in log)
    && (forall m <- inbox :: m in log)
  }

  ghost predicate MirrorsAt(c: Config, s: System, g: string)
    requires Ok(c, s) && g in c.followers
  {
    Mirrors(c.vs, s.log, s.followers[g], s.delivered[g], s.inbox[g])
  }

  ghost predicate FollowersOk(c: Config, s: System)
    requires Ok(c, s)
  {
    forall f <- c.followers :: MirrorsAt(c, s, f)
  }

  /** Between rounds at most one commit is waiting to be broadcast. */
  predicate OutboxOk(s: System) {
    s.outbox.Some? ==> s.proposer.phase.Idle? && s.outbox.value.CommitMsg?
  }

  ghost predicate Inv(c: Config, s: System)
    requires Ok(c, s)
  {
    ProposerOk(c.vs, Logged(s.log, s.outbox), s.proposer) && OutboxOk(s) && FollowersOk(c, s)
  }

  lemma MirrorsLogged(vs: map<string, Validator>, log: seq<Message>, m: Message, f: LedgerState, d: seq<Message>,
                      q: seq<Message>)
    requires Mirrors(vs, log, f, d, q)
    ensures Mirrors(vs, log + [m], f, d, q + [m])
  {
  }

  lemma BroadcastOk(c: Config, t: System, m: Option<Message>)
    requires Ok(c, t)
    ensures Ok(c, Broadcast(t, m))
  {
  }

  lemma BroadcastFollowers(c: Config, s: System, t: System, m: Option<Message>)
    requires Ok(c, s) && FollowersOk(c, s) && Ok(c, t)
    requires t.followers == s.followers && t.inbox == s.inbox && t.delivered == s.delivered && t.log == s.log
    ensures Ok(c, Broadcast(t, m)) && FollowersOk(c, Broadcast(t, m))
    ensures Broadcast(t, m).log == Logged(s.log, m)
  {
    BroadcastOk(c, t, m);
    forall f <- c.followers
      ensures MirrorsAt(c, Broadcast(t, m), f)
    {
      assert MirrorsAt(c, s, f);
      BroadcastMirror(c, s, t, m, f);
    }
  }

  lemma BroadcastMirror(c: Config, s: System, t: System, m: Option<Message>, f: string)
    requires Ok(c, s) && Ok(c, t) && Ok(c, Broadcast(t, m)) && f in c.followers && MirrorsAt(c, s, f)
    requires t.followers == s.followers && t.inbox == s.inbox && t.delivered == s.delivered && t.log == s.log
    ensures MirrorsAt(c, Broadcast(t, m), f)
  {
    if m.Some? { MirrorsLogged(c.vs, s.log, m.value, s.followers[f], s.delivered[f], s.inbox[f]); }
  }

  lemma StartInv(c: Config, s: System, tx: Transaction, target: string)
    requires Ok(c, s) && Inv(c, s) && CanStart(s, tx, target)
    ensures Inv(c, StartStep(c, s, tx, target))
  {
    BeginOk(c.vs, s.log, s.proposer, c.self, tx, target);
    var (p, m) := Begin(s.proposer, c.self, tx, target);
    var t := s.(proposer := p, castYes := StartStep(c, s, tx, target).castYes);
    StartShaped(c, s, tx, target);
    BroadcastFollowers(c, s, t, m);
  }

  lemma StartShaped(c: Config, s: System, tx: Transaction, target: string)
    requires Ok(c, s) && s.proposer.phase.Idle?
    ensures var (p, m) := Begin(s.proposer, c.self, tx, target);
            var r := StartStep(c, s, tx, target);
            r == Broadcast(s.(proposer := p, castYes := r.castYes), m)
  {
  }

  lemma EndInv(c: Config, s: System)
    requires Ok(c, s) && Inv(c, s) && s.proposer.phase.Collecting?
    ensures Inv(c, EndStep(c, s))
  {
    FinishOk(c.vs, s.log, s.proposer, c.n);
    SameFollowers(c, s, EndStep(c, s));
  }

  lemma TellInv(c: Config, s: System)
    requires Ok(c, s) && Inv(c, s) && s.outbox.Some?
    ensures Inv(c, TellStep(c, s))
  {
    BroadcastFollowers(c, s, s.(outbox := None), s.outbox);
  }

  lemma SameFollowers(c: Config, s: System, r: System)
    requires Ok(c, s) && Ok(c, r) && FollowersOk(c, s)
    requires r.followers == s.followers && r.inbox == s.inbox && r.delivered == s.delivered && r.log == s.log
    ensures FollowersOk(c, r)
  {
    forall f <- c.followers ensures MirrorsAt(c, r, f) { assert MirrorsAt(c, s, f); }
  }

  lemma MirrorsHandles(vs: map<string, Validator>, log: seq<Message>, f: LedgerState, d: seq<Message>, q: seq<Message>,
                       k: nat)
    requires Mirrors(vs, log, f, d, q) && k < |q|
    ensures Mirrors(vs, log, Handle(f, q[k]), d + [q[k]], RemoveAt(q, k))
  {
    assert (d + [q[k]])[..|d|] == d;
  }

  lemma DeliveredMirror(c: Config, s: System, f: string, k: nat, g: string)
    requires Ok(c, s) && g in c.followers && MirrorsAt(c, s, g) && f in s.inbox && k < |s.inbox[f]|
    ensures MirrorsAt(c, Delivered(c, s, f, k), g)
  {
    DeliveredFrame(c, s, f, k, g);
    if g == f { MirrorsHandles(c.vs, s.log, s.followers[f], s.delivered[f], s.inbox[f], k); }
  }

  lemma DeliveredMirrors(c: Config, s: System, f: string, k: nat)
    requires Ok(c, s) && FollowersOk(c, s) && f in s.inbox && k < |s.inbox[f]|
    ensures FollowersOk(c, Delivered(c, s, f, k))
  {
    forall g <- c.followers
      ensures MirrorsAt(c, Delivered(c, s, f, k), g)
    {
      assert MirrorsAt(c, s, g);
      DeliveredMirror(c, s, f, k, g);
    }
  }

  lemma FollowerTakesInv(c: Config, s: System, f: string, k: nat)
    requires Ok(c, s) && Inv(c, s) && f in s.inbox && k < |s.inbox[f]|
    ensures Inv(c, FollowerStepAt(c, s, f, k))
  {
    DeliveredMirrors(c, s, f, k);
    SendingInv(c, Delivered(c, s, f, k), TxID(s.inbox[f][k]), f, Answer(s.followers[f], s.inbox[f][k]));
  }

  lemma SendingInv(c: Config, s: System, id: string, f: string, vote: Option<bool>)
    requires Ok(c, s) && Inv(c, s)
    ensures Ok(c, WithVote(s, id, f, vote)) && Inv(c, WithVote(s, id, f, vote))
  {
    SameFollowers(c, s, WithVote(s, id, f, vote));
  }

  lemma ProposerTakesInv(c: Config, s: System, k: nat)
    requires Ok(c, s) && Inv(c, s) && s.proposer.phase.Collecting? && k < |s.mailbox|
    ensures Inv(c, ProposerStepAt(c, s, k))
  {
    if s.proposer.phase.collected < c.n - 1 {
      var r := s.(proposer := Receive(s.proposer, s.mailbox[k]), mailbox := RemoveAt(s.mailbox, k));
      assert ProposerStepAt(c, s, k) == r;
      ReceiveOk(c.vs, s.log, s.proposer, s.mailbox[k]);
      SameFollowers(c, s, r);
    }
  }

  lemma ReceiveOk(vs: map<string, Validator>, log: seq<Message>, p: Proposer, m: Message)
    requires ProposerOk(vs, log, p) && p.phase.Collecting?
    ensures ProposerOk(vs, log, Receive(p, m))
  {
    assert InRound(log, Receive(p, m));
  }

  lemma InboxInv(c: Config, s: System, f: string, q: seq<Message>)
    requires Ok(c, s) && Inv(c, s) && f in s.inbox && forall m <- q :: m in s.inbox[f]
    ensures Inv(c, WithInbox(c, s, f, q))
  {
    InboxMirrors(c, s, f, q);
  }

  lemma InboxMirrors(c: Config, s: System, f: string, q: seq<Message>)
    requires Ok(c, s) && FollowersOk(c, s) && f in s.inbox && forall m <- q :: m in s.inbox[f]
    ensures FollowersOk(c, WithInbox(c, s, f, q))
  {
    forall g <- c.followers
      ensures MirrorsAt(c, WithInbox(c, s, f, q), g)
    {
      assert MirrorsAt(c, s, g);
      InboxMirror(c, s, f, q, g);
    }
  }

  lemma InboxMirror(c: Config, s: System, f: string, q: seq<Message>, g: string)
    requires Ok(c, s) && g in c.followers && MirrorsAt(c, s, g) && f in s.inbox && forall m <- q :: m in s.inbox[f]
    ensures MirrorsAt(c, WithInbox(c, s, f, q), g)
  {
  }

  lemma NextInv(c: Config, s: System, l: Label)
    requires Ok(c, s) && Inv(c, s)
    ensures Inv(c, Next(c, s, l))
  {
    if !Enabled(s, l) {
      return;
    } else if OfNetwork(l) {
      NetworkInv(c, s, l);
    } else {
      NodeInv(c, s, l);
    }
  }

  lemma NodeInv(c: Config, s: System, l: Label)
    requires Ok(c, s) && Inv(c, s) && Enabled(s, l) && !OfNetwork(l)
    ensures Inv(c, NodeStep(c, s, l))
  {
    match l
    case Start(tx, target) => StartInv(c, s, tx, target);
    case ProposerTakes(k) => ProposerTakesInv(c, s, k);
    case End => EndInv(c, s);
    case Tell => TellInv(c, s);
    case FollowerTakes(f, k) => FollowerTakesInv(c, s, f, k);
  }

  lemma NextOfNetwork(c: Config, s: System, l: Label)
    requires Ok(c, s) && Enabled(s, l) && OfNetwork(l)
    ensures Next(c, s, l) == NetworkStep(c, s, l)
  {
  }

  lemma NextOfNode(c: Config, s: System, l: Label)
    requires Ok(c, s) && Enabled(s, l) && !OfNetwork(l)
    ensures Next(c, s, l) == NodeStep(c, s, l)
  {
  }

  lemma LoseInv(c: Config, s: System, f: string, k: nat)
    requires Ok(c, s) && Inv(c, s) && f in s.inbox && k < |s.inbox[f]|
    ensures Inv(c, WithInbox(c, s, f, RemoveAt(s.inbox[f], k)))
  {
    InboxInv(c, s, f, RemoveAt(s.inbox[f], k));
  }

  lemma CopyInv(c: Config, s: System, f: string, k: nat)
    requires Ok(c, s) && Inv(c, s) && f in s.inbox && k < |s.inbox[f]|
    ensures Inv(c, WithInbox(c, s, f, s.inbox[f] + [s.inbox[f][k]]))
  {
    InboxInv(c, s, f, s.inbox[f] + [s.inbox[f][k]]);
  }

  /** What the network does to messages in flight. */
  lemma NetworkInv(c: Config, s: System, l: Label)
    requires Ok(c, s) && Inv(c, s) && Enabled(s, l) && OfNetwork(l)
    ensures Inv(c, NetworkStep(c, s, l))
  {
    match l
    case LoseAt(f, k) => LoseInv(c, s, f, k);
    case CopyAt(f, k) => CopyInv(c, s, f, k);
    case LoseVote(k) => MailboxInv(c, s, RemoveAt(s.mailbox, k));
    case CopyVote(k) => MailboxInv(c, s, s.mailbox + [s.mailbox[k]]);
  }

  lemma MailboxInv(c: Config, s: System, q: seq<Message>)
    requires Ok(c, s) && Inv(c, s)
    ensures Ok(c, s.(mailbox := q)) && Inv(c, s.(mailbox := q))
  {
    SameFollowers(c, s, s.(mailbox := q));
  }

  lemma {:induction false} RunInv(c: Config, labels: seq<Label>)
    ensures Inv(c, Run(c, labels))
  {
    if labels == [] {
      assert SameBalances(c.vs, Replayed(c.vs, []));
    } else {
      RunInv(c, labels[..|labels| - 1]);
      NextInv(c, Run(c, labels[..|labels| - 1]), labels[|labels| - 1]);
    }
  }

  // ----- Theorem: replica prefix agreement -----

  /** The network neither loses, copies nor reorders messages to f. */
  predicate ReliableLabel(f: string, l: Label) {
    match l
    case FollowerTakes(g, k) => g == f ==> k == 0
    case LoseAt(g, _) => g != f
    case CopyAt(g, _) => g != f
    case _ => true
  }

  predicate ReliableTo(f: string, labels: seq<Label>) {
    forall l <- labels :: ReliableLabel(f, l)
  }

  lemma {:induction false} QueueIsRestOfLog(c: Config, labels: seq<Label>, f: string)
    requires f in c.followers && ReliableTo(f, labels)
    ensures var s := Run(c, labels); s.log == s.delivered[f] + s.inbox[f]
  {
    if labels != [] {
      QueueIsRestOfLog(c, labels[..|labels| - 1], f);
      NextKeepsOrder(c, Run(c, labels[..|labels| - 1]), labels[|labels| - 1], f);
    }
  }

  lemma NextKeepsOrder(c: Config, s: System, l: Label, f: string)
    requires Ok(c, s) && f in c.followers && ReliableLabel(f, l) && s.log == s.delivered[f] + s.inbox[f]
    ensures var r := Next(c, s, l); r.log == r.delivered[f] + r.inbox[f]
  {
    if !Enabled(s, l) {
      return;
    } else if OfNetwork(l) {
      NetworkKeepsOrder(c, s, l, f);
    } else {
      NodeKeepsOrder(c, s, l, f);
    }
  }

  lemma NodeKeepsOrder(c: Config, s: System, l: Label, f: string)
    requires Ok(c, s) && f in c.followers && Enabled(s, l) && !OfNetwork(l) && ReliableLabel(f, l)
    requires s.log == s.delivered[f] + s.inbox[f]
    ensures var r := NodeStep(c, s, l); r.log == r.delivered[f] + r.inbox[f]
  {
    match l
    case FollowerTakes(g, k) => TakingKeepsOrder(c, s, g, k, f);
    case Start(tx, target) => StartKeepsOrder(c, s, tx, target, f);
    case End => EndKeepsOrder(c, s);
    case Tell => TellKeepsOrder(c, s, f);
    case ProposerTakes(k) => MailboxKeepsOrder(c, s, k);
  }

  lemma MailboxKeepsOrder(c: Config, s: System, k: nat)
    requires Ok(c, s) && s.proposer.phase.Collecting? && k < |s.mailbox|
    ensures var r := ProposerStepAt(c, s, k); r.log == s.log && r.delivered == s.delivered && r.inbox == s.inbox
  {
    if s.proposer.phase.collected < c.n - 1 {
      assert ProposerStepAt(c, s, k)
          == s.(proposer := Receive(s.proposer, s.mailbox[k]), mailbox := RemoveAt(s.mailbox, k));
    }
  }

  lemma NetworkKeepsOrder(c: Config, s: System, l: Label, f: string)
    requires Ok(c, s) && Enabled(s, l) && f in c.followers && ReliableLabel(f, l) && OfNetwork(l)
    ensures var r := NetworkStep(c, s, l); r.log == s.log && r.delivered == s.delivered && r.inbox[f] == s.inbox[f]
  {
    match l
    case LoseAt(g, k) => OtherInboxKept(c, s, g, RemoveAt(s.inbox[g], k), f);
    case CopyAt(g, k) => OtherInboxKept(c, s, g, s.inbox[g] + [s.inbox[g][k]], f);
    case LoseVote(k) => assert NetworkStep(c, s, l) == s.(mailbox := RemoveAt(s.mailbox, k));
    case CopyVote(k) => assert NetworkStep(c, s, l) == s.(mailbox := s.mailbox + [s.mailbox[k]]);
  }

  lemma OtherInboxKept(c: Config, s: System, g: string, q: seq<Message>, f: string)
    requires Ok(c, s) && g in s.inbox && f in c.followers && g != f
    ensures var r := WithInbox(c, s, g, q); r.log == s.log && r.delivered == s.delivered && r.inbox[f] == s.inbox[f]
  {
  }

  lemma StartKeepsOrder(c: Config, s: System, tx: Transaction, target: string, f: string)
    requires Ok(c, s) && f in c.followers && s.proposer.phase.Idle? && s.log == s.delivered[f] + s.inbox[f]
    ensures var r := StartStep(c, s, tx, target); r.log == r.delivered[f] + r.inbox[f]
  {
    BroadcastKeepsOrder(s, Begin(s.proposer, c.self, tx, target).1, f);
  }

  lemma EndKeepsOrder(c: Config, s: System)
    requires Ok(c, s) && s.proposer.phase.Collecting?
    ensures var r := EndStep(c, s); r.log == s.log && r.delivered == s.delivered && r.inbox == s.inbox
  {
  }

  lemma TellKeepsOrder(c: Config, s: System, f: string)
    requires Ok(c, s) && f in c.followers && s.log == s.delivered[f] + s.inbox[f]
    ensures var r := TellStep(c, s); r.log == r.delivered[f] + r.inbox[f]
  {
    BroadcastKeepsOrder(s, s.outbox, f);
  }

  lemma TakingKeepsOrder(c: Config, s: System, g: string, k: nat, f: string)
    requires Ok(c, s) && f in c.followers && s.log == s.delivered[f] + s.inbox[f]
    requires g in s.inbox && k < |s.inbox[g]| && (g == f ==> k == 0)
    ensures var r := FollowerStepAt(c, s, g, k); r.log == r.delivered[f] + r.inbox[f]
  {
    FollowerStepFrame(c, s, g, k, f);
    if g == f { TakeFirst(s.delivered[f], s.inbox[f]); }
  }

  /** What a delivery does to the queue and history of f, and what it leaves alone. */
  lemma DeliveredFrame(c: Config, s: System, g: string, k: nat, f: string)
    requires Ok(c, s) && f in c.followers && g in s.inbox && k < |s.inbox[g]|
    ensures var r := Delivered(c, s, g, k);
            && r.log == s.log && r.proposer == s.proposer
            && r.inbox[f] == (if g == f then RemoveAt(s.inbox[f], k) else s.inbox[f])
            && r.delivered[f] == (if g == f then s.delivered[f] + [s.inbox[f][k]] else s.delivered[f])
            && r.followers[f] == (if g == f then Handle(s.followers[f], s.inbox[f][k]) else s.followers[f])
  {
  }

  /** What a follower's step does to the queue and history of f, and what it leaves alone. */
  lemma FollowerStepFrame(c: Config, s: System, g: string, k: nat, f: string)
    requires Ok(c, s) && f in c.followers && g in s.inbox && k < |s.inbox[g]|
    ensures var r := FollowerStepAt(c, s, g, k);
            && r.log == s.log && r.proposer == s.proposer
            && r.inbox[f] == (if g == f then RemoveAt(s.inbox[f], k) else s.inbox[f])
            && r.delivered[f] == (if g == f then s.delivered[f] + [s.inbox[f][k]] else s.delivered[f])
            && r.followers[f] == (if g == f then Handle(s.followers[f], s.inbox[f][k]) else s.followers[f])
  {
    DeliveredFrame(c, s, g, k, f);
  }

  lemma TakeFirst<T>(d: seq<T>, q: seq<T>)
    requires q != []
    ensures d + q == (d + [q[0]]) + RemoveAt(q, 0)
  {
  }

  lemma BroadcastKeepsOrder(s: System, m: Option<Message>, f: string)
    requires f in s.inbox && f in s.delivered && s.log == s.delivered[f] + s.inbox[f]
    ensures m.Some? ==> s.log + [m.value] == s.delivered[f] + (s.inbox[f] + [m.value])
  {
  }

  /**
   On a network that is reliable towards f, in every reachable state: f has handled a prefix of the
   broadcast log, its balances are the initial ones with exactly that prefix's commits applied, and no
   proposal or commit has failed at f.  Once its queue is empty its balances are the proposer's, or, at the
   moment when the proposer has committed and not yet broadcast, the proposer's before that one commit.
   */
  lemma ReplicaPrefixAgreement(c: Config, labels: seq<Label>, f: string)
    requires f in c.followers && ReliableTo(f, labels)
    ensures var s := Run(c, labels);
            && s.delivered[f] <= s.log
            && SameBalances(s.followers[f].validators, Replayed(c.vs, s.delivered[f]))
            && (forall j | 0 <= j < |s.delivered[f]| :: SmoothAt(c.vs, s.log, j))
            && (s.inbox[f] == [] && s.outbox.None? ==>
                  SameBalances(s.followers[f].validators, s.proposer.ledger.validators))
            && (s.inbox[f] == [] && s.outbox.Some? ==>
                  SameBalances(Replayed(c.vs, s.delivered[f] + [s.outbox.value]), s.proposer.ledger.validators))
  {
    var s := Run(c, labels);
    RunInv(c, labels);
    QueueIsRestOfLog(c, labels, f);
    SoundLog(c, s);
    var k := |s.delivered[f]|;
    assert s.log[..k] == s.delivered[f];
    assert MirrorsAt(c, s, f);
    PrefixAgreement(c.vs, s.log, k);
    forall j | 0 <= j < k ensures SmoothAt(c.vs, s.log, j) { NothingFailsInOrder(c.vs, s.log, j); }
    if s.inbox[f] == [] { assert s.delivered[f] == s.log; }
  }

  /** The log is sound, with or without the commit that waits to be broadcast. */
  lemma SoundLog(c: Config, s: System)
    requires Ok(c, s) && Inv(c, s)
    ensures Sound(c.vs, s.log)
  {
    if s.outbox.Some? { SoundPrefix(c.vs, s.log, s.outbox.value); }
  }

  lemma SoundPrefix(vs: map<string, Validator>, log: seq<Message>, m: Message)
    requires Sound(vs, log + [m])
    ensures Sound(vs, log)
  {
    forall k | 0 <= k < |log|
      ensures SoundAt(vs, log, k)
    {
      assert SoundAt(vs, log + [m], k);
      assert (log + [m])[..k] == log[..k];
    }
  }

  // ----- Theorem: agreement on a bad network -----

  /**
   However messages are dropped, delayed, reordered or copied: everything a follower has confirmed, the
   proposer has confirmed with the same terms; the follower lists each ID once and its balances are the
   effect of that list, so it applied nothing twice.
   */
  lemma AgreementOnBadNetwork(c: Config, labels: seq<Label>, f: string)
    requires f in c.followers
    ensures var s := Run(c, labels);
            var g, p := s.followers[f], s.proposer.ledger;
            && (forall id <- g.confirmed ::
                  id in p.confirmed && SameTerms(g.allTxs[g.confirmed[id]], p.allTxs[p.confirmed[id]]))
            && UniqueIds(g.allTxs)
            && forall v, cur :: Reconciled(c.vs, g, v, cur)
  {
    var s := Run(c, labels);
    RunInv(c, labels);
    var log := Logged(s.log, s.outbox);
    assert MirrorsAt(c, s, f);
    forall m <- s.delivered[f] ensures m in log { assert m in s.log; }
    BadNetworkAgreement(c.vs, log, s.delivered[f]);
    forall id <- s.followers[f].confirmed
      ensures id in s.proposer.ledger.confirmed
      ensures SameTerms(s.followers[f].allTxs[s.followers[f].confirmed[id]],
                        s.proposer.ledger.allTxs[s.proposer.ledger.confirmed[id]])
    {
      AgreeOn(c.vs, log, s.followers[f], s.proposer, id);
    }
    forall v, cur ensures Reconciled(c.vs, s.followers[f], v, cur) { FoldReconciles(c.vs, s.delivered[f], v, cur); }
  }

  lemma AgreeOn(vs: map<string, Validator>, log: seq<Message>, g: LedgerState, p: Proposer, id: string)
    requires ProposerOk(vs, log, p) && Wf(g) && CopiesOf(log, g) && id in g.confirmed
    ensures id in p.ledger.confirmed
    ensures SameTerms(g.allTxs[g.confirmed[id]], p.ledger.allTxs[p.ledger.confirmed[id]])
  {
    assert CommittedIn(log, id);
    var c :| c in log && c.CommitMsg? && c.id == id;
    var x, y := g.allTxs[g.confirmed[id]], p.ledger.allTxs[p.ledger.confirmed[id]];
    assert ProposedIn(log, x) && ProposedIn(log, y);
    var m :| m in log && m.Proposal? && SameTerms(m.tx, x);
    var n :| n in log && n.Proposal? && SameTerms(n.tx, y);
    SoundUnique(vs, log, m, n);
  }
}
