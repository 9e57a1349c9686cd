/**
 A validator node: as a follower it replicates proposed transactions, votes and applies commits; as the
 proposer it broadcasts a proposal, counts votes with buffering of unrelated messages, and decides.
 */
module NodeModel {
  import opened Base
  import opened LedgerModel
  import opened EngineModel

  datatype Message =
    | Proposal(target: string, tx: Transaction, round: nat)
    | CommitMsg(id: string, round: nat)
    | VoteMsg(id: string, voter: string, yes: bool)

  function TxID(m: Message): string {
    match m
    case Proposal(target, _, _) => target
    case CommitMsg(id, _) => id
    case VoteMsg(id, _, _) => id
  }

  // ----- Follower -----

  /** The follower's ledger after handling one message. */
  function Handle(s: LedgerState, m: Message): (r: LedgerState)
    requires Wf(s)
    ensures Wf(r)
  {
    match m
    case Proposal(_, tx, _) => SubmitIfAbsent(s, tx)
    case CommitMsg(id, _) => Commit(s, id)
    case VoteMsg(_, _, _) => s
  }

  /** The vote a follower sends for a message, if any: none when the submit or the vote itself fails. */
  function Answer(s: LedgerState, m: Message): Option<bool>
    requires Wf(s)
  {
    if !m.Proposal? then None
    else if m.tx.id !in s.seen && SubmitCheck(s, m.tx).Some? then None
    else Vote(Handle(s, m), m.target)
  }

  // ----- Proposer -----

  /** A round in progress. The code keeps only the two counters; the sets record whose votes were counted,
      and `repeats` how many yes votes came from a validator whose yes was already counted. */
  datatype Phase =
    | Idle
    | Collecting(id: string, round: nat, collected: nat, yesVotes: nat,
                 heard: set<string>, yesVoters: set<string>, repeats: nat)

  datatype Proposer = Proposer(ledger: LedgerState, phase: Phase, buffer: map<string, seq<Message>>)

  function CountVote(ph: Phase, m: Message): Phase
    requires ph.Collecting? && m.VoteMsg?
  {
    ph.(collected := ph.collected + 1,
        yesVotes := ph.yesVotes + (if m.yes then 1 else 0),
        heard := ph.heard + {m.voter},
        yesVoters := ph.yesVoters + (if m.yes then {m.voter} else {}),
        repeats := ph.repeats + (if m.yes && m.voter in ph.yesVoters then 1 else 0))
  }

  /** Count the votes among messages that were buffered for this transaction. */
  function Drain(ph: Phase, msgs: seq<Message>): (r: Phase)
    requires ph.Collecting?
    ensures r.Collecting? && r.id == ph.id && r.round == ph.round
  {
    if msgs == [] then ph
    else
      var d := Drain(ph, msgs[..|msgs| - 1]);
      if msgs[|msgs| - 1].VoteMsg? then CountVote(d, msgs[|msgs| - 1]) else d
  }

  function Buffered(buffer: map<string, seq<Message>>, id: string): seq<Message> {
    if id in buffer then buffer[id] else []
  }

  /** Start of ProposeSettlement, up to the drain of buffered votes; also the message it broadcasts. */
  function Begin(p: Proposer, self: string, tx: Transaction, target: string): (r: (Proposer, Option<Message>))
    requires Wf(p.ledger) && p.phase.Idle?
    ensures Wf(r.0.ledger)
  {
    if SubmitCheck(p.ledger, tx).Some? then (p, None)
    else
      var m := Submit(p.ledger, tx);
      if !CanPropose(m, self) then (p.(ledger := Cleanup(m, tx.id)), None)
      else
        var q := Propose(m, self);
        var proposal := Proposal(target, q.allTxs[|p.ledger.allTxs|], q.currentRound);
        match Vote(q, target)
        case None => (p.(ledger := Cleanup(q, tx.id)), Some(proposal))
        case Some(yes) =>
          var own := Collecting(tx.id, q.currentRound, 0, if yes then 1 else 0, {}, if yes then {self} else {}, 0);
          (Proposer(q, Drain(own, Buffered(p.buffer, tx.id)), p.buffer - {tx.id}), Some(proposal))
  }

  /** One message received while collecting: counted if it is a vote for this round, buffered otherwise. */
  function Receive(p: Proposer, m: Message): (r: Proposer)
    requires p.phase.Collecting?
    ensures r.phase.Collecting? && r.phase.id == p.phase.id && r.phase.round == p.phase.round && r.ledger == p.ledger
  {
    if m.VoteMsg? && m.id == p.phase.id then p.(phase := CountVote(p.phase, m))
    else p.(buffer := p.buffer[TxID(m) := Buffered(p.buffer, TxID(m)) + [m]])
  }

  /** End of the round: commit and announce on a majority of n, clean up otherwise. */
  function Finish(p: Proposer, n: nat): (r: (Proposer, Option<Message>))
    requires Wf(p.ledger) && p.phase.Collecting?
    ensures Wf(r.0.ledger) && r.0.phase.Idle?
  {
    var id := p.phase.id;
    if Majority(p.phase.yesVotes, n) then
      if CommitCheck(p.ledger, id) == Committed then
        (Proposer(Commit(p.ledger, id), Idle, p.buffer), Some(CommitMsg(id, p.phase.round)))
      else (Proposer(Cleanup(Commit(p.ledger, id), id), Idle, p.buffer), None)
    else (Proposer(Cleanup(p.ledger, id), Idle, p.buffer), None)
  }

  /** The messages the collection loop takes from the inbox: until enough votes are in or nothing more comes. */
  function Collect(p: Proposer, n: nat, msgs: seq<Message>): (r: Proposer)
    requires p.phase.Collecting?
    ensures r.phase.Collecting? && r.phase.id == p.phase.id && r.phase.round == p.phase.round && r.ledger == p.ledger
  {
    if msgs == [] then p
    else
      var q := Collect(p, n, msgs[..|msgs| - 1]);
      if q.phase.collected < n - 1 then Receive(q, msgs[|msgs| - 1]) else q
  }

  class ValidatorNode {
    const id: string
    const validators: seq<string>
    const ledger: Ledger
    var pendingMsgs: map<string, seq<Message>>

    constructor (id: string, initial: seq<(string, Validator)>)
      ensures this.id == id && pendingMsgs == map[]
      ensures |validators| == |initial| && forall i | 0 <= i < |initial| :: validators[i] == initial[i].0
      ensures fresh(ledger) && ledger.State() == New(Seed(initial))
    {
      this.id := id;
      validators := seq(|initial|, i requires 0 <= i < |initial| => initial[i].0);
      ledger := new Ledger(initial);
      pendingMsgs := map[];
    }

    method HandleProposal(m: Message) returns (vote: Option<Message>)
      requires m.Proposal? && Wf(ledger.State())
      modifies ledger
      ensures ledger.State() == Handle(old(ledger.State()), m)
      ensures vote == match Answer(old(ledger.State()), m)
                      case None => None
                      case Some(yes) => Some(VoteMsg(m.target, id, yes))
    {
      vote := None;
      var _, err := ledger.SubmitTransactionIfAbsent(m.tx);
      if err.Some? { return; }
      var v := ledger.CastVote(m.target);
      if v.Some? { vote := Some(VoteMsg(m.target, id, v.value)); }
    }

    method HandleCommit(m: Message)
      requires m.CommitMsg? && Wf(ledger.State())
      modifies ledger
      ensures ledger.State() == Handle(old(ledger.State()), m)
    {
      var _ := ledger.CommitTransaction(m.id);
    }

    /** Submit, propose, vote for oneself and drain the buffer.  `b` is the proposer's state afterwards. */
    method BeginRound(tx: Transaction)
      returns (proposal: Option<Message>, collecting: bool, collected: nat, yesVotes: nat, ghost b: Proposer,
               ghost target: string)
      requires Wf(ledger.State())
      modifies this`pendingMsgs, ledger
      ensures Wf(ledger.State())
      ensures SubmitCheck(old(ledger.State()), tx).None? ==> target in Submit(old(ledger.State()), tx).pending
      ensures (b, proposal) == Begin(Proposer(old(ledger.State()), Idle, old(pendingMsgs)), id, tx, target)
      ensures ledger.State() == b.ledger && pendingMsgs == b.buffer && collecting == b.phase.Collecting?
      ensures collecting ==>
                && proposal.Some? && b.phase.id == tx.id && b.phase.collected == collected
                && b.phase.yesVotes == yesVotes && b.phase.round == ledger.currentRound
    {
      ghost var p := Proposer(ledger.State(), Idle, pendingMsgs);
      proposal, collecting, collected, yesVotes, b, target := None, false, 0, 0, p, tx.id;
      var k := |ledger.allTxs|;
      var err := ledger.SubmitTransaction(tx);
      if err.Some? { return; }
      var choice := ledger.ProposeBlock(id);
      if choice.None? {
        ledger.CleanupPending(tx.id);
        b := Begin(p, id, tx, target).0;
        return;
      }
      target := choice.value;
      proposal := Some(Proposal(choice.value, ledger.allTxs[k], ledger.currentRound));
      var own := ledger.CastVote(choice.value);
      collecting, yesVotes := true, if own.value then 1 else 0;
      ghost var ph := Collecting(tx.id, ledger.currentRound, 0, yesVotes, {}, if own.value then {id} else {}, 0);
      var drained := Buffered(pendingMsgs, tx.id);
      collected, yesVotes := CountBuffered(ph, yesVotes, drained);
      pendingMsgs := pendingMsgs - {tx.id};
      b := Begin(p, id, tx, target).0;
    }

    static method CountBuffered(ghost ph: Phase, ownVotes: nat, drained: seq<Message>)
      returns (collected: nat, yesVotes: nat)
      requires ph.Collecting? && ph.collected == 0 && ph.yesVotes == ownVotes
      ensures collected == Drain(ph, drained).collected && yesVotes == Drain(ph, drained).yesVotes
    {
      collected, yesVotes := 0, ownVotes;
      for i := 0 to |drained|
        invariant collected == Drain(ph, drained[..i]).collected && yesVotes == Drain(ph, drained[..i]).yesVotes
      {
        assert drained[..i + 1][..i] == drained[..i];
        if drained[i].VoteMsg? {
          collected := collected + 1;
          if drained[i].yes { yesVotes := yesVotes + 1; }
        }
      }
      assert drained[..|drained|] == drained;
    }

    /** The collection loop over what Receive yields, in order, before the vote timeout. */
    method CollectVotes(tx: Transaction, received: seq<Message>, collected0: nat, yesVotes0: nat, ghost b: Proposer)
      returns (yesVotes: nat)
      requires b.phase.Collecting? && b.phase.id == tx.id && b.buffer == pendingMsgs
      requires b.phase.collected == collected0 && b.phase.yesVotes == yesVotes0
      modifies this`pendingMsgs
      ensures pendingMsgs == Collect(b, |validators|, received).buffer
      ensures yesVotes == Collect(b, |validators|, received).phase.yesVotes
    {
      var collected := collected0;
      yesVotes := yesVotes0;
      var i := 0;
      while i < |received| && collected < |validators| - 1
        invariant 0 <= i <= |received|
        invariant var q := Collect(b, |validators|, received[..i]);
                  pendingMsgs == q.buffer && collected == q.phase.collected && yesVotes == q.phase.yesVotes
      {
        assert received[..i + 1][..i] == received[..i];
        var m := received[i];
        if !(m.VoteMsg? && m.id == tx.id) {
          pendingMsgs := pendingMsgs[TxID(m) := Buffered(pendingMsgs, TxID(m)) + [m]];
        } else {
          collected := collected + 1;
          if m.yes { yesVotes := yesVotes + 1; }
        }
        i := i + 1;
      }
      CollectStops(b, |validators|, received, i);
    }

    /** The whole round as proposer, with the messages it broadcasts. */
    method ProposeSettlement(tx: Transaction, received: seq<Message>)
      returns (sent: seq<Message>, confirmed: bool, votes: nat, ghost b: Proposer, ghost target: string)
      requires Wf(ledger.State())
      modifies this`pendingMsgs, ledger
      ensures Wf(ledger.State())
      ensures b == Begin(Proposer(old(ledger.State()), Idle, old(pendingMsgs)), id, tx, target).0
      ensures SubmitCheck(old(ledger.State()), tx).None? ==> target in Submit(old(ledger.State()), tx).pending
      ensures !b.phase.Collecting? ==> ledger.State() == b.ledger && pendingMsgs == b.buffer && !confirmed && sent == []
      ensures b.phase.Collecting? ==>
                ghost var q := Collect(b, |validators|, received);
                && votes == q.phase.yesVotes
                && ledger.State() == Finish(q, |validators|).0.ledger && pendingMsgs == q.buffer
                && confirmed == Finish(q, |validators|).1.Some?
                && sent == [Begin(Proposer(old(ledger.State()), Idle, old(pendingMsgs)), id, tx, target).1.value]
                         + (if confirmed then [Finish(q, |validators|).1.value] else [])
    {
      var proposal, collecting, collected, yesVotes;
      sent, confirmed, votes := [], false, 0;
      proposal, collecting, collected, yesVotes, b, target := BeginRound(tx);
      if !collecting { return; }
      sent := [proposal.value];
      var round := ledger.currentRound;
      votes := CollectVotes(tx, received, collected, yesVotes, b);
      if votes >= |validators| / 2 + 1 {
        var outcome := ledger.CommitTransaction(tx.id);
        if outcome != Committed {
          ledger.CleanupPending(tx.id);
          return;
        }
        sent, confirmed := sent + [CommitMsg(tx.id, round)], true;
      } else {
        ledger.CleanupPending(tx.id);
      }
    }
  }

  /** Once enough votes are in, later messages stay in the inbox. */
  lemma {:induction false} CollectStops(p: Proposer, n: nat, msgs: seq<Message>, i: nat)
    requires p.phase.Collecting? && i <= |msgs|
    requires i < |msgs| ==> Collect(p, n, msgs[..i]).phase.collected >= n - 1
    ensures Collect(p, n, msgs) == Collect(p, n, msgs[..i])
  {
    if i == |msgs| {
      assert msgs[..i] == msgs;
    } else {
      var l := |msgs| - 1;
      assert msgs[..l][..i] == msgs[..i];
      CollectStops(p, n, msgs[..l], i);
    }
  }
}
