/**
 Quorums: on a network that may lose, delay and reorder but not copy messages, every commit is backed by
 yes votes of a majority of distinct validators, although the code only counts votes.
 */
module Quorum {
  import opened Base
  import opened LedgerModel
  import opened EngineModel
  import opened NodeModel
  import opened Protocol

  // ----- Counting what can still become a counted vote of f on id -----

  predicate IsToken(m: Message, f: string, id: string) {
    (m.Proposal? && m.target == id) || (m.VoteMsg? && m.id == id && m.voter == f)
  }

  function Tokens(q: seq<Message>, f: string, id: string): nat {
    if q == [] then 0
    else Tokens(q[..|q| - 1], f, id) + if IsToken(q[|q| - 1], f, id) then 1 else 0
  }

  lemma {:induction false} TokensConcat(a: seq<Message>, b: seq<Message>, f: string, id: string)
    ensures Tokens(a + b, f, id) == Tokens(a, f, id) + Tokens(b, f, id)
  {
    if b == [] {
      assert a + b == a;
    } else {
      var n := |b| - 1;
      assert (a + b)[..|a + b| - 1] == a + b[..n];
      TokensConcat(a, b[..n], f, id);
    }
  }

  lemma TokensRemove(q: seq<Message>, k: nat, f: string, id: string)
    requires k < |q|
    ensures Tokens(q, f, id) == Tokens(RemoveAt(q, k), f, id) + if IsToken(q[k], f, id) then 1 else 0
  {
    assert q == q[..k] + [q[k]] + q[k + 1..];
    TokensConcat(q[..k] + [q[k]], q[k + 1..], f, id);
    TokensConcat(q[..k], [q[k]], f, id);
    TokensConcat(q[..k], q[k + 1..], f, id);
  }

  lemma TokensAppend(q: seq<Message>, m: Message, f: string, id: string)
    ensures Tokens(q + [m], f, id) == Tokens(q, f, id) + if IsToken(m, f, id) then 1 else 0
  {
    assert (q + [m])[..|q|] == q;
  }

  lemma TokensPositive(q: seq<Message>, k: nat, f: string, id: string)
    requires k < |q| && IsToken(q[k], f, id)
    ensures Tokens(q, f, id) > 0
  {
    TokensRemove(q, k, f, id);
  }

  function Heard(ph: Phase, f: string, id: string): nat {
    if ph.Collecting? && ph.id == id && f in ph.heard then 1 else 0
  }

  /** Undelivered proposals to f, undelivered or buffered votes of f, and a counted vote of f, all for id. */
  function Load(inbox: seq<Message>, mailbox: seq<Message>, buffered: seq<Message>, ph: Phase, f: string,
                id: string): nat {
    Tokens(inbox, f, id) + Tokens(mailbox, f, id) + Tokens(buffered, f, id) + Heard(ph, f, id)
  }

  ghost predicate ProposedId(log: seq<Message>, id: string) {
    exists m <- log :: m.Proposal? && m.tx.id == id
  }

  /** At most one vote of f on id exists in any form, and none before id was proposed. */
  ghost predicate AtMostOne(s: System, f: string, id: string)
    requires f in s.inbox
  {
    var n := Load(s.inbox[f], s.mailbox, Buffered(s.proposer.buffer, id), s.proposer.phase, f, id);
    n <= 1 && (n > 0 ==> ProposedId(s.log, id))
  }

  // ----- The invariant -----

  predicate GenuineVote(c: Config, castYes: set<(string, string)>, m: Message) {
    m.VoteMsg? && m.voter in c.followers && (m.yes ==> (m.voter, m.id) in castYes)
  }

  ghost predicate GenuineBuffer(c: Config, castYes: set<(string, string)>, buffer: map<string, seq<Message>>) {
    forall id <- buffer :: GenuineFor(c, castYes, id, buffer[id])
  }

  ghost predicate GenuineFor(c: Config, castYes: set<(string, string)>, id: string, msgs: seq<Message>) {
    forall m <- msgs :: GenuineVote(c, castYes, m) && m.id == id
  }

  /** A set of validators each of which voted yes on id. */
  ghost predicate VotedYes(c: Config, castYes: set<(string, string)>, voters: set<string>, id: string) {
    voters <= c.followers + {c.self} && forall v <- voters :: (v, id) in castYes
  }

  /** Counted voters are genuine, and every counted yes is a new voter or a repeat. */
  ghost predicate PhaseCounts(c: Config, castYes: set<(string, string)>, ph: Phase) {
    ph.Collecting? ==>
      && ph.heard <= c.followers
      && ph.yesVoters <= ph.heard + {c.self}
      && ph.yesVotes == |ph.yesVoters| + ph.repeats
      && VotedYes(c, castYes, ph.yesVoters, ph.id)
  }

  ghost predicate IsQuorum(c: Config, castYes: set<(string, string)>, voters: set<string>, id: string) {
    |voters| >= c.n / 2 + 1 && VotedYes(c, castYes, voters, id)
  }

  /** The counted yes votes reached the majority; their voters are genuine, and the rest of them are repeats. */
  ghost predicate TallyOk(c: Config, castYes: set<(string, string)>, t: Tally, id: string) {
    Majority(t.yes, c.n) && t.yes == |t.voters| + t.repeats && VotedYes(c, castYes, t.voters, id)
  }

  ghost predicate Backed(c: Config, castYes: set<(string, string)>, backing: map<string, Tally>) {
    forall id <- backing :: TallyOk(c, castYes, backing[id], id)
  }

  /** What holds of the votes on every network. */
  ghost predicate VotesOk(c: Config, s: System) {
    && (forall m <- s.mailbox :: GenuineVote(c, s.castYes, m))
    && GenuineBuffer(c, s.castYes, s.proposer.buffer)
    && PhaseCounts(c, s.castYes, s.proposer.phase)
    && Backed(c, s.castYes, s.backing)
    && s.backing.Keys == s.proposer.ledger.confirmed.Keys
  }

  ghost predicate LoadOk(c: Config, s: System)
    requires Ok(c, s)
  {
    forall f <- c.followers, id :: AtMostOne(s, f, id)
  }

  /** No yes vote was counted twice. */
  ghost predicate NoRepeats(s: System) {
    && (s.proposer.phase.Collecting? ==> s.proposer.phase.repeats == 0)
    && forall id <- s.backing :: s.backing[id].repeats == 0
  }

  ghost predicate QInv(c: Config, s: System)
    requires Ok(c, s)
  {
    Inv(c, s) && VotesOk(c, s) && LoadOk(c, s) && NoRepeats(s)
  }

  predicate NoCopies(labels: seq<Label>) {
    forall l <- labels :: !l.CopyAt? && !l.CopyVote?
  }

  // ----- Start of a round -----

  /** Nothing is buffered for an ID that was never proposed. */
  lemma NothingBuffered(c: Config, s: System, id: string)
    requires Ok(c, s) && VotesOk(c, s) && LoadOk(c, s) && !ProposedId(s.log, id)
    ensures Buffered(s.proposer.buffer, id) == []
  {
    var b := Buffered(s.proposer.buffer, id);
    if b != [] {
      assert GenuineFor(c, s.castYes, id, b) && b[0] in b;
      var f := b[0].voter;
      assert AtMostOne(s, f, id);
      TokensPositive(b, 0, f, id);
    }
  }

  lemma GenuineBufferKept(c: Config, a: set<(string, string)>, b: set<(string, string)>,
                          buffer: map<string, seq<Message>>, rest: map<string, seq<Message>>)
    requires GenuineBuffer(c, a, buffer) && a <= b
    requires forall id <- rest :: id in buffer && rest[id] == buffer[id]
    ensures GenuineBuffer(c, b, rest)
  {
    forall id <- rest ensures GenuineFor(c, b, id, rest[id]) { assert GenuineFor(c, a, id, buffer[id]); }
  }

  /** A proposer that starts a round on a fresh ID begins with its own yes vote and nothing heard. */
  lemma StartShape(c: Config, s: System, tx: Transaction, target: string)
    requires Ok(c, s) && QInv(c, s) && CanStart(s, tx, target)
    ensures var (p, m) := Begin(s.proposer, c.self, tx, target);
            && !ProposedId(s.log, tx.id) && Buffered(s.proposer.buffer, tx.id) == []
            && p.ledger.confirmed == s.proposer.ledger.confirmed
            && (m.None? ==> p.buffer == s.proposer.buffer && p.phase.Idle?)
            && (m.Some? ==>
                  && m.value.Proposal? && m.value.target == m.value.tx.id == tx.id
                  && p.buffer == s.proposer.buffer - {tx.id}
                  && p.phase.Collecting? && p.phase.id == tx.id && p.phase.heard == {}
                  && p.phase.repeats == 0)
  {
    BeginShape(s.proposer, c.self, tx, target);
    assert !ProposedId(s.log, tx.id);
    NothingBuffered(c, s, tx.id);
  }

  lemma StartVotes(c: Config, s: System, tx: Transaction, target: string)
    requires c.self !in c.followers && Ok(c, s) && Inv(c, s) && VotesOk(c, s) && CanStart(s, tx, target)
    ensures VotesOk(c, StartStep(c, s, tx, target))
  {
    var (p, m) := Begin(s.proposer, c.self, tx, target);
    var r := StartStep(c, s, tx, target);
    if SubmitCheck(s.proposer.ledger, tx).None? {
      BeginShape(s.proposer, c.self, tx, target);
      StartPhase(c, s, tx, target, r.castYes);
    }
    StartKeepsBuffer(s.proposer, c.self, tx, target);
    GenuineBufferKept(c, s.castYes, r.castYes, s.proposer.buffer, p.buffer);
    StartedVotes(c, s, r, p);
  }

  lemma StartKeepsBuffer(p: Proposer, self: string, tx: Transaction, target: string)
    requires Wf(p.ledger) && p.phase.Idle?
    ensures var b := Begin(p, self, tx, target).0.buffer; b == p.buffer || b == p.buffer - {tx.id}
  {
  }

  lemma StartedVotes(c: Config, s: System, r: System, p: Proposer)
    requires VotesOk(c, s) && r.proposer == p && r.mailbox == s.mailbox && r.backing == s.backing
    requires s.castYes <= r.castYes && p.ledger.confirmed == s.proposer.ledger.confirmed
    requires GenuineBuffer(c, r.castYes, p.buffer) && PhaseCounts(c, r.castYes, p.phase)
    ensures VotesOk(c, r)
  {
    forall id <- r.backing
      ensures TallyOk(c, r.castYes, r.backing[id], id)
    {
      assert TallyOk(c, s.castYes, s.backing[id], id);
    }
  }

  /** A round starts with the proposer's own yes vote and whatever genuine votes were buffered for it. */
  lemma StartPhase(c: Config, s: System, tx: Transaction, target: string, castYes: set<(string, string)>)
    requires c.self !in c.followers && Ok(c, s) && Inv(c, s) && VotesOk(c, s) && CanStart(s, tx, target)
    requires SubmitCheck(s.proposer.ledger, tx).None? && castYes == StartStep(c, s, tx, target).castYes
    ensures PhaseCounts(c, castYes, Begin(s.proposer, c.self, tx, target).0.phase)
  {
    BeginPhase(s.proposer, c.self, tx, target);
    var b := Buffered(s.proposer.buffer, tx.id);
    assert GenuineFor(c, s.castYes, tx.id, b);
    var ph := Begin(s.proposer, c.self, tx, target).0.phase;
    StartedPhase(c, s.castYes, castYes, ph, OwnPhase(s.proposer, c.self, tx), b);
  }

  lemma StartedPhase(c: Config, castYes: set<(string, string)>, after: set<(string, string)>, ph: Phase, own: Phase,
                     msgs: seq<Message>)
    requires c.self !in c.followers && own.Collecting? && GenuineFor(c, castYes, own.id, msgs)
    requires own.heard == {} && own.yesVoters == {c.self} && own.yesVotes == 1 && own.repeats == 0
    requires ph.Collecting? ==> ph == Drain(own, msgs)
    requires after == castYes + if ph.Collecting? && c.self in ph.yesVoters then {(c.self, own.id)} else {}
    ensures PhaseCounts(c, after, ph)
  {
    if ph.Collecting? { OwnPhaseGenuine(c, castYes, after, own, msgs); }
  }

  lemma OwnPhaseGenuine(c: Config, castYes: set<(string, string)>, after: set<(string, string)>, own: Phase,
                        msgs: seq<Message>)
    requires c.self !in c.followers && own.Collecting? && GenuineFor(c, castYes, own.id, msgs)
    requires own.heard == {} && own.yesVoters == {c.self} && own.yesVotes == 1 && own.repeats == 0
    requires after == castYes + if c.self in Drain(own, msgs).yesVoters then {(c.self, own.id)} else {}
    ensures PhaseCounts(c, after, Drain(own, msgs))
  {
    DrainKeepsSelf(own, msgs, c.self);
    DrainGenuine(c, after, own, msgs);
  }

  lemma BeginPhase(p: Proposer, self: string, tx: Transaction, target: string)
    requires Wf(p.ledger) && p.phase.Idle? && p.ledger.pending == map[]
    requires tx.id !in p.ledger.seen && SubmitCheck(p.ledger, tx).None? && target in Submit(p.ledger, tx).pending
    ensures var ph := Begin(p, self, tx, target).0.phase;
            ph.Collecting? ==> ph == Drain(OwnPhase(p, self, tx), Buffered(p.buffer, tx.id))
  {
    SubmitShape(p.ledger, tx);
  }

  /** The phase of a round on tx before the buffered votes are counted, the proposer having voted yes. */
  function OwnPhase(p: Proposer, self: string, tx: Transaction): Phase {
    Collecting(tx.id, p.ledger.currentRound + 1, 0, 1, {}, {self}, 0)
  }

  lemma {:induction false} DrainKeepsSelf(ph: Phase, msgs: seq<Message>, v: string)
    requires ph.Collecting? && v in ph.yesVoters
    ensures v in Drain(ph, msgs).yesVoters
  {
    if msgs != [] { DrainKeepsSelf(ph, msgs[..|msgs| - 1], v); }
  }

  lemma {:induction false} DrainGenuine(c: Config, castYes: set<(string, string)>, ph: Phase, msgs: seq<Message>)
    requires c.self !in c.followers && ph.Collecting? && PhaseCounts(c, castYes, ph)
    requires GenuineFor(c, castYes, ph.id, msgs)
    ensures PhaseCounts(c, castYes, Drain(ph, msgs))
  {
    if msgs != [] {
      var n := |msgs| - 1;
      DrainGenuine(c, castYes, ph, msgs[..n]);
      CountKeepsPhase(c, castYes, Drain(ph, msgs[..n]), msgs[n]);
    }
  }

  /** The effect on one (f, id) of broadcasting m while the proposer moves to q. */
  lemma BroadcastLoad(s: System, q: Proposer, castYes: set<(string, string)>, m: Option<Message>,
                      f: string, id: string)
    requires f in s.inbox && AtMostOne(s, f, id)
    requires Buffered(q.buffer, id) == Buffered(s.proposer.buffer, id) && Heard(q.phase, f, id) == 0
    requires m.Some? && m.value.Proposal? ==> m.value.target == m.value.tx.id && !ProposedId(s.log, m.value.tx.id)
    requires m.Some? ==> !m.value.VoteMsg?
    ensures AtMostOne(Broadcast(s.(proposer := q, outbox := None, castYes := castYes), m), f, id)
  {
    if m.Some? {
      TokensAppend(s.inbox[f], m.value, f, id);
      ProposedIdGrows(s.log, m.value, id);
    }
  }

  lemma StartBuffer(a: map<string, seq<Message>>, b: map<string, seq<Message>>, tx: string, id: string)
    requires (b == a || b == a - {tx}) && Buffered(a, tx) == []
    ensures Buffered(b, id) == Buffered(a, id)
  {
  }

  lemma StartLoad(c: Config, s: System, tx: Transaction, target: string, f: string, id: string)
    requires Ok(c, s) && QInv(c, s) && CanStart(s, tx, target) && f in c.followers
    ensures AtMostOne(StartStep(c, s, tx, target), f, id)
  {
    assert AtMostOne(s, f, id);
    StartShape(c, s, tx, target);
    var (p, m) := Begin(s.proposer, c.self, tx, target);
    StartBuffer(s.proposer.buffer, p.buffer, tx.id, id);
    BroadcastLoad(s, p, StartStep(c, s, tx, target).castYes, m, f, id);
  }

  lemma ProposedIdGrows(log: seq<Message>, m: Message, id: string)
    ensures ProposedId(log + [m], id) <==> ProposedId(log, id) || (m.Proposal? && m.tx.id == id)
  {
    if ProposedId(log, id) {
      var p :| p in log && p.Proposal? && p.tx.id == id;
      assert p in log + [m];
    }
    if m.Proposal? && m.tx.id == id { assert m in log + [m]; }
  }

  // ----- A message reaches the proposer -----

  lemma TakeShape(c: Config, s: System, k: nat)
    requires Ok(c, s) && s.proposer.phase.Collecting? && k < |s.mailbox|
    ensures ProposerStepAt(c, s, k) ==
              if s.proposer.phase.collected >= c.n - 1 then s
              else s.(proposer := Receive(s.proposer, s.mailbox[k]), mailbox := RemoveAt(s.mailbox, k))
  {
  }

  lemma TakeVotes(c: Config, s: System, k: nat)
    requires c.self !in c.followers && Ok(c, s) && VotesOk(c, s)
    requires s.proposer.phase.Collecting? && k < |s.mailbox|
    ensures VotesOk(c, ProposerStepAt(c, s, k))
  {
    assert GenuineVote(c, s.castYes, s.mailbox[k]);
    TakeShape(c, s, k);
    ReceiveVotes(c, s.castYes, s.proposer, s.mailbox[k]);
    if s.proposer.phase.collected < c.n - 1 {
      TakenVotes(c, s, Receive(s.proposer, s.mailbox[k]), RemoveAt(s.mailbox, k));
    }
  }

  lemma TakenVotes(c: Config, s: System, p: Proposer, mailbox: seq<Message>)
    requires VotesOk(c, s) && p.ledger == s.proposer.ledger && forall m <- mailbox :: m in s.mailbox
    requires GenuineBuffer(c, s.castYes, p.buffer) && PhaseCounts(c, s.castYes, p.phase)
    ensures VotesOk(c, s.(proposer := p, mailbox := mailbox))
  {
  }

  /** A vote still in the mailbox has not been counted. */
  lemma NotHeardYet(c: Config, s: System, k: nat)
    requires Ok(c, s) && LoadOk(c, s) && s.proposer.phase.Collecting? && k < |s.mailbox|
    requires s.mailbox[k].VoteMsg? && s.mailbox[k].voter in c.followers && s.mailbox[k].id == s.proposer.phase.id
    ensures s.mailbox[k].voter !in s.proposer.phase.heard
  {
    var m := s.mailbox[k];
    TokensPositive(s.mailbox, k, m.voter, m.id);
    assert AtMostOne(s, m.voter, m.id);
  }

  lemma ReceiveVotes(c: Config, castYes: set<(string, string)>, p: Proposer, m: Message)
    requires c.self !in c.followers && p.phase.Collecting? && PhaseCounts(c, castYes, p.phase)
             && GenuineBuffer(c, castYes, p.buffer)
    requires GenuineVote(c, castYes, m)
    ensures PhaseCounts(c, castYes, Receive(p, m).phase) && GenuineBuffer(c, castYes, Receive(p, m).buffer)
  {
    if m.id == p.phase.id { CountKeepsPhase(c, castYes, p.phase, m); } else { BufferGrows(c, castYes, p.buffer, m); }
  }

  lemma CountKeepsPhase(c: Config, castYes: set<(string, string)>, ph: Phase, m: Message)
    requires c.self !in c.followers && ph.Collecting? && PhaseCounts(c, castYes, ph)
    requires GenuineVote(c, castYes, m) && m.id == ph.id
    ensures PhaseCounts(c, castYes, CountVote(ph, m))
  {
    if m.yes && m.voter in ph.yesVoters { assert ph.yesVoters + {m.voter} == ph.yesVoters; }
  }

  lemma BufferGrows(c: Config, castYes: set<(string, string)>, buffer: map<string, seq<Message>>, m: Message)
    requires GenuineBuffer(c, castYes, buffer) && GenuineVote(c, castYes, m)
    ensures GenuineBuffer(c, castYes, buffer[m.id := Buffered(buffer, m.id) + [m]])
  {
    var b := buffer[m.id := Buffered(buffer, m.id) + [m]];
    forall id <- b
      ensures GenuineFor(c, castYes, id, b[id])
    {
      if id in buffer { assert GenuineFor(c, castYes, id, buffer[id]); }
    }
  }

  lemma TakeLoad(c: Config, s: System, k: nat, f: string, id: string)
    requires Ok(c, s) && f in c.followers && AtMostOne(s, f, id)
    requires s.proposer.phase.Collecting? && k < |s.mailbox| && s.mailbox[k].VoteMsg?
    ensures AtMostOne(ProposerStepAt(c, s, k), f, id)
  {
    if s.proposer.phase.collected < c.n - 1 { ReceivedLoad(s, k, f, id); }
  }

  lemma ReceivedLoad(s: System, k: nat, f: string, id: string)
    requires f in s.inbox && AtMostOne(s, f, id)
    requires s.proposer.phase.Collecting? && k < |s.mailbox| && s.mailbox[k].VoteMsg?
    ensures AtMostOne(s.(proposer := Receive(s.proposer, s.mailbox[k]), mailbox := RemoveAt(s.mailbox, k)), f, id)
  {
    var p, m := s.proposer, s.mailbox[k];
    TokensRemove(s.mailbox, k, f, id);
    TokensAppend(Buffered(p.buffer, id), m, f, id);
    if m.id != p.phase.id && id != m.id { assert Buffered(Receive(p, m).buffer, id) == Buffered(p.buffer, id); }
  }

  // ----- End of a round -----

  lemma EndVotes(c: Config, s: System)
    requires Ok(c, s) && Inv(c, s) && VotesOk(c, s) && s.proposer.phase.Collecting?
    ensures VotesOk(c, EndStep(c, s))
  {
    FinishOk(c.vs, s.log, s.proposer, c.n);
    var (p, m) := Finish(s.proposer, c.n);
    EndedVotes(c, s, EndStep(c, s), p, m);
  }

  lemma EndedVotes(c: Config, s: System, r: System, p: Proposer, m: Option<Message>)
    requires VotesOk(c, s) && s.proposer.phase.Collecting? && p.phase.Idle? && p.buffer == s.proposer.buffer
    requires m.Some? ==> Majority(s.proposer.phase.yesVotes, c.n)
    requires p.ledger.confirmed.Keys == s.proposer.ledger.confirmed.Keys + if m.Some? then {s.proposer.phase.id} else {}
    requires r.proposer == p && r.mailbox == s.mailbox && r.castYes == s.castYes
    requires var ph := s.proposer.phase;
             r.backing == if m.None? then s.backing
                          else s.backing[ph.id := Tally(ph.yesVoters, ph.yesVotes, ph.repeats)]
    ensures VotesOk(c, r)
  {
    if m.Some? { BackedGrows(c, s.castYes, s.backing, s.proposer.phase); }
  }

  lemma BackedGrows(c: Config, castYes: set<(string, string)>, backing: map<string, Tally>, ph: Phase)
    requires Backed(c, castYes, backing) && ph.Collecting? && PhaseCounts(c, castYes, ph) && Majority(ph.yesVotes, c.n)
    ensures Backed(c, castYes, backing[ph.id := Tally(ph.yesVoters, ph.yesVotes, ph.repeats)])
  {
    assert TallyOk(c, castYes, Tally(ph.yesVoters, ph.yesVotes, ph.repeats), ph.id);
  }

  lemma EndLoad(c: Config, s: System, f: string, id: string)
    requires Ok(c, s) && s.proposer.phase.Collecting? && f in c.followers && AtMostOne(s, f, id)
    ensures AtMostOne(EndStep(c, s), f, id)
  {
  }

  lemma TellVotes(c: Config, s: System)
    requires Ok(c, s) && VotesOk(c, s)
    ensures VotesOk(c, TellStep(c, s))
  {
  }

  lemma TellLoad(c: Config, s: System, f: string, id: string)
    requires Ok(c, s) && OutboxOk(s) && f in c.followers && AtMostOne(s, f, id) && s.outbox.Some?
    ensures AtMostOne(TellStep(c, s), f, id)
  {
    BroadcastLoad(s, s.proposer, s.castYes, s.outbox, f, id);
  }

  // ----- A follower handles a message -----

  lemma SendingVotes(c: Config, s: System, id: string, f: string, vote: Option<bool>)
    requires VotesOk(c, s) && f in c.followers
    ensures VotesOk(c, WithVote(s, id, f, vote))
  {
    var r := WithVote(s, id, f, vote);
    GenuineBufferKept(c, s.castYes, r.castYes, s.proposer.buffer, s.proposer.buffer);
  }

  lemma FollowerVotes(c: Config, s: System, f: string, k: nat)
    requires Ok(c, s) && VotesOk(c, s) && f in s.inbox && k < |s.inbox[f]|
    ensures VotesOk(c, FollowerStepAt(c, s, f, k))
  {
    var m := s.inbox[f][k];
    assert VotesOk(c, Delivered(c, s, f, k));
    SendingVotes(c, Delivered(c, s, f, k), TxID(m), f, Answer(s.followers[f], m));
  }

  lemma DeliveredLoad(c: Config, s: System, g: string, k: nat, f: string, id: string)
    requires Ok(c, s) && g in s.inbox && k < |s.inbox[g]| && f in c.followers && AtMostOne(s, f, id)
    ensures AtMostOne(Delivered(c, s, g, k), f, id)
    ensures g == f && IsToken(s.inbox[g][k], f, id) ==> NoneLeft(Delivered(c, s, g, k), f, id) && ProposedId(s.log, id)
  {
    if g == f { TokensRemove(s.inbox[f], k, f, id); }
  }

  ghost predicate NoneLeft(s: System, f: string, id: string)
    requires f in s.inbox
  {
    Load(s.inbox[f], s.mailbox, Buffered(s.proposer.buffer, id), s.proposer.phase, f, id) == 0
  }

  /** A vote may be sent when nothing else of f on id is under way. */
  lemma SendingLoad(s: System, target: string, g: string, vote: Option<bool>, f: string, id: string)
    requires f in s.inbox && AtMostOne(s, f, id)
    requires vote.Some? && g == f && target == id ==> NoneLeft(s, f, id) && ProposedId(s.log, id)
    ensures AtMostOne(WithVote(s, target, g, vote), f, id)
  {
    if vote.Some? { TokensAppend(s.mailbox, VoteMsg(target, g, vote.value), f, id); }
  }

  lemma FollowerLoad(c: Config, s: System, g: string, k: nat, f: string, id: string)
    requires Ok(c, s) && g in s.inbox && k < |s.inbox[g]| && f in c.followers && AtMostOne(s, f, id)
    ensures AtMostOne(FollowerStepAt(c, s, g, k), f, id)
  {
    DeliveredLoad(c, s, g, k, f, id);
    SendingLoad(Delivered(c, s, g, k), TxID(s.inbox[g][k]), g, Answer(s.followers[g], s.inbox[g][k]), f, id);
  }

  // ----- Every run -----

  lemma NextVotes(c: Config, s: System, l: Label)
    requires c.self !in c.followers && Ok(c, s) && Inv(c, s) && VotesOk(c, s)
    ensures VotesOk(c, Next(c, s, l))
  {
    if !Enabled(s, l) {
      return;
    } else if OfNetwork(l) {
      NetworkVotes(c, s, l);
    } else {
      NodeVotes(c, s, l);
    }
  }

  lemma NodeVotes(c: Config, s: System, l: Label)
    requires c.self !in c.followers && Ok(c, s) && Inv(c, s) && VotesOk(c, s) && Enabled(s, l) && !OfNetwork(l)
    ensures VotesOk(c, NodeStep(c, s, l))
  {
    match l
    case Start(tx, target) => StartVotes(c, s, tx, target);
    case ProposerTakes(k) => TakeVotes(c, s, k);
    case End => EndVotes(c, s);
    case Tell => TellVotes(c, s);
    case FollowerTakes(f, k) => FollowerVotes(c, s, f, k);
  }

  lemma NetworkVotes(c: Config, s: System, l: Label)
    requires Ok(c, s) && VotesOk(c, s) && Enabled(s, l) && OfNetwork(l)
    ensures VotesOk(c, NetworkStep(c, s, l))
  {
  }

  lemma NextQInv(c: Config, s: System, l: Label)
    requires c.self !in c.followers && !l.CopyAt? && !l.CopyVote?
    requires Ok(c, s) && QInv(c, s)
    ensures QInv(c, Next(c, s, l))
  {
    NextInv(c, s, l);
    NextVotes(c, s, l);
    NextRepeats(c, s, l);
    forall f <- c.followers, id ensures AtMostOne(Next(c, s, l), f, id) { NextLoad(c, s, l, f, id); }
  }

  lemma NextRepeats(c: Config, s: System, l: Label)
    requires c.self !in c.followers && Ok(c, s) && QInv(c, s)
    ensures NoRepeats(Next(c, s, l))
  {
    if !Enabled(s, l) {
      return;
    } else if OfNetwork(l) {
      NetworkRepeats(c, s, l);
    } else {
      NodeRepeats(c, s, l);
    }
  }

  lemma NodeRepeats(c: Config, s: System, l: Label)
    requires c.self !in c.followers && Ok(c, s) && QInv(c, s) && Enabled(s, l) && !OfNetwork(l)
    ensures NoRepeats(NodeStep(c, s, l))
  {
    match l
    case Start(tx, target) => StartRepeats(c, s, tx, target);
    case ProposerTakes(k) => TakeRepeats(c, s, k);
    case End => EndRepeats(c, s);
    case Tell => TellRepeats(c, s);
    case FollowerTakes(f, k) => FollowerRepeats(c, s, f, k);
  }

  lemma StartRepeats(c: Config, s: System, tx: Transaction, target: string)
    requires Ok(c, s) && QInv(c, s) && CanStart(s, tx, target)
    ensures NoRepeats(StartStep(c, s, tx, target))
  {
    StartShape(c, s, tx, target);
  }

  lemma EndRepeats(c: Config, s: System)
    requires Ok(c, s) && s.proposer.phase.Collecting? && NoRepeats(s)
    ensures NoRepeats(EndStep(c, s))
  {
  }

  lemma TellRepeats(c: Config, s: System)
    requires Ok(c, s)
    ensures var r := TellStep(c, s); r.proposer == s.proposer && r.backing == s.backing
  {
  }

  lemma NetworkRepeats(c: Config, s: System, l: Label)
    requires Ok(c, s) && Enabled(s, l) && OfNetwork(l)
    ensures var r := NetworkStep(c, s, l); r.proposer == s.proposer && r.backing == s.backing
  {
  }

  lemma FollowerRepeats(c: Config, s: System, f: string, k: nat)
    requires Ok(c, s) && f in s.inbox && k < |s.inbox[f]|
    ensures var r := FollowerStepAt(c, s, f, k); r.proposer == s.proposer && r.backing == s.backing
  {
    var m, d := s.inbox[f][k], Delivered(c, s, f, k);
    assert d == s.(followers := d.followers, inbox := d.inbox, delivered := d.delivered);
    assert FollowerStepAt(c, s, f, k) == WithVote(d, TxID(m), f, Answer(s.followers[f], m));
  }

  lemma TakeRepeats(c: Config, s: System, k: nat)
    requires c.self !in c.followers && Ok(c, s) && VotesOk(c, s) && LoadOk(c, s) && NoRepeats(s)
    requires s.proposer.phase.Collecting? && k < |s.mailbox|
    ensures NoRepeats(ProposerStepAt(c, s, k))
  {
    assert GenuineVote(c, s.castYes, s.mailbox[k]);
    TakeShape(c, s, k);
    if s.mailbox[k].id == s.proposer.phase.id { NotHeardYet(c, s, k); }
  }

  lemma NextLoad(c: Config, s: System, l: Label, f: string, id: string)
    requires !l.CopyAt? && !l.CopyVote? && f in c.followers
    requires Ok(c, s) && QInv(c, s)
    ensures AtMostOne(Next(c, s, l), f, id)
  {
    assert AtMostOne(s, f, id);
    if !Enabled(s, l) {
      return;
    } else if OfNetwork(l) {
      NetworkLoad(c, s, l, f, id);
    } else {
      NodeLoad(c, s, l, f, id);
    }
  }

  lemma NodeLoad(c: Config, s: System, l: Label, f: string, id: string)
    requires Ok(c, s) && QInv(c, s) && f in c.followers && AtMostOne(s, f, id) && Enabled(s, l) && !OfNetwork(l)
    ensures AtMostOne(NodeStep(c, s, l), f, id)
  {
    match l
    case Start(tx, target) => StartLoad(c, s, tx, target, f, id);
    case ProposerTakes(k) => TakeGenuineLoad(c, s, k, f, id);
    case End => EndLoad(c, s, f, id);
    case Tell => TellLoad(c, s, f, id);
    case FollowerTakes(g, k) => FollowerLoad(c, s, g, k, f, id);
  }

  lemma TakeGenuineLoad(c: Config, s: System, k: nat, f: string, id: string)
    requires Ok(c, s) && VotesOk(c, s) && f in c.followers && AtMostOne(s, f, id)
    requires s.proposer.phase.Collecting? && k < |s.mailbox|
    ensures AtMostOne(ProposerStepAt(c, s, k), f, id)
  {
    assert GenuineVote(c, s.castYes, s.mailbox[k]);
    TakeLoad(c, s, k, f, id);
  }

  lemma NetworkLoad(c: Config, s: System, l: Label, f: string, id: string)
    requires Ok(c, s) && f in c.followers && AtMostOne(s, f, id) && Enabled(s, l) && (l.LoseAt? || l.LoseVote?)
    ensures AtMostOne(NetworkStep(c, s, l), f, id)
  {
    match l
    case LoseAt(g, k) => LosingLoad(c, s, g, k, f, id);
    case LoseVote(k) => LosingVoteLoad(s, k, f, id);
  }

  lemma LosingVoteLoad(s: System, k: nat, f: string, id: string)
    requires f in s.inbox && AtMostOne(s, f, id) && k < |s.mailbox|
    ensures AtMostOne(s.(mailbox := RemoveAt(s.mailbox, k)), f, id)
  {
    TokensRemove(s.mailbox, k, f, id);
  }

  lemma LosingLoad(c: Config, s: System, g: string, k: nat, f: string, id: string)
    requires Ok(c, s) && f in c.followers && AtMostOne(s, f, id) && g in s.inbox && k < |s.inbox[g]|
    ensures AtMostOne(WithInbox(c, s, g, RemoveAt(s.inbox[g], k)), f, id)
  {
    TokensRemove(s.inbox[g], k, f, id);
  }

  lemma {:induction false} RunQInv(c: Config, labels: seq<Label>)
    requires c.self !in c.followers && NoCopies(labels)
    ensures QInv(c, Protocol.Run(c, labels))
  {
    if labels == [] {
      RunInv(c, labels);
    } else {
      RunQInv(c, labels[..|labels| - 1]);
      NextQInv(c, Protocol.Run(c, labels[..|labels| - 1]), labels[|labels| - 1]);
    }
  }

  lemma {:induction false} RunVotes(c: Config, labels: seq<Label>)
    requires c.self !in c.followers
    ensures VotesOk(c, Protocol.Run(c, labels))
  {
    if labels != [] {
      var n := |labels| - 1;
      RunInv(c, labels[..n]);
      RunVotes(c, labels[..n]);
      NextVotes(c, Protocol.Run(c, labels[..n]), labels[n]);
    }
  }

  /** Every transaction the proposer has confirmed is backed by yes votes of more than half of the n validators. */
  lemma QuorumBacksEveryCommit(c: Config, labels: seq<Label>)
    requires c.self !in c.followers && NoCopies(labels)
    ensures var s := Protocol.Run(c, labels);
            forall id <- s.proposer.ledger.confirmed ::
              id in s.backing && IsQuorum(c, s.castYes, s.backing[id].voters, id)
  {
    RunQInv(c, labels);
    var s := Protocol.Run(c, labels);
    forall id <- s.backing
      ensures IsQuorum(c, s.castYes, s.backing[id].voters, id)
    {
      assert TallyOk(c, s.castYes, s.backing[id], id);
    }
  }

  /**
   On any network, copies included: every confirmed transaction has a majority of counted yes votes, each
   from a validator that did vote yes.  Their voters are a quorum if and only if a majority is left when the
   votes counted twice are taken off.
   */
  lemma QuorumIffEnoughOnceCounted(c: Config, labels: seq<Label>)
    requires c.self !in c.followers
    ensures var s := Protocol.Run(c, labels);
            forall id <- s.proposer.ledger.confirmed ::
              && id in s.backing && VotedYes(c, s.castYes, s.backing[id].voters, id) && Majority(s.backing[id].yes, c.n)
              && (IsQuorum(c, s.castYes, s.backing[id].voters, id) <==>
                    s.backing[id].yes - s.backing[id].repeats >= c.n / 2 + 1)
  {
    RunVotes(c, labels);
    var s := Protocol.Run(c, labels);
    assert forall id <- s.backing :: TallyOk(c, s.castYes, s.backing[id], id);
  }

  lemma Pigeonhole<T>(a: set<T>, b: set<T>, u: set<T>)
    requires a <= u && b <= u && |a| + |b| > |u|
    ensures a * b != {}
  {
    SubsetSize(a + b, u);
    assert |a + b| == |a| + |b| - |a * b|;
  }

  /** With n distinct validators, any two confirmed transactions share a validator that voted yes on both. */
  lemma QuorumsIntersect(c: Config, labels: seq<Label>, id1: string, id2: string)
    requires c.self !in c.followers && NoCopies(labels) && c.n == |c.followers| + 1
    requires id1 in Protocol.Run(c, labels).proposer.ledger.confirmed
             && id2 in Protocol.Run(c, labels).proposer.ledger.confirmed
    ensures var s := Protocol.Run(c, labels);
            exists v :: v in c.followers + {c.self} && (v, id1) in s.castYes && (v, id2) in s.castYes
  {
    var s := Protocol.Run(c, labels);
    QuorumBacksEveryCommit(c, labels);
    var u := c.followers + {c.self};
    Pigeonhole(s.backing[id1].voters, s.backing[id2].voters, u);
    var v :| v in s.backing[id1].voters * s.backing[id2].voters;
  }

  // ----- What a copied vote does -----

  /** The run below, after k of its steps: proposed, voted, vote copied, counted once, counted twice. */
  ghost predicate Stage(c: Config, s: System, tx: Transaction, f: string, k: nat)
    requires Ok(c, s)
  {
    var ph, v := s.proposer.phase, VoteMsg(tx.id, f, true);
    && ph.Collecting? && ph.id == tx.id && ph.collected == (if k < 4 then 0 else k - 3)
    && ph.yesVotes == ph.collected + 1 && ph.yesVoters == (if k < 4 then {c.self} else {c.self, f})
    && ph.repeats == (if k < 5 then 0 else 1)
    && s.mailbox == (if k == 1 || k == 5 then [] else if k == 3 then [v, v] else [v])
  }

  lemma RunSnoc(c: Config, labels: seq<Label>, l: Label)
    ensures Protocol.Run(c, labels + [l]) == Next(c, Protocol.Run(c, labels), l)
  {
    assert (labels + [l])[..|labels|] == labels;
  }

  /** The proposal of tx waits at f, which has handled nothing yet and can pay for it. */
  ghost predicate Waiting(c: Config, s: System, tx: Transaction, f: string)
    requires Ok(c, s) && f in c.followers
  {
    && s.followers[f] == New(c.vs) && |s.inbox[f]| == 1
    && var m := s.inbox[f][0]; m.Proposal? && m.target == m.tx.id == tx.id && SubmitCheck(New(c.vs), m.tx).None?
  }

  /** The first proposal of a run: the proposer has voted yes, and the proposal waits at every follower. */
  lemma FirstRound(c: Config, tx: Transaction, f: string)
    requires f in c.followers && c.self in c.vs && SubmitCheck(New(c.vs), tx).None?
    ensures var s := StartStep(c, Init(c), tx, tx.id); Stage(c, s, tx, f, 1) && Waiting(c, s, tx, f)
  {
    var p := Init(c).proposer;
    SubmitShape(p.ledger, tx);
    BeginShape(p, c.self, tx, tx.id);
    BeginPhase(p, c.self, tx, tx.id);
  }

  lemma VotesYes(c: Config, s: System, tx: Transaction, f: string)
    requires Ok(c, s) && f in c.followers && Stage(c, s, tx, f, 1) && Waiting(c, s, tx, f)
    ensures Stage(c, FollowerStepAt(c, s, f, 0), tx, f, 2)
  {
    var m, d := s.inbox[f][0], Delivered(c, s, f, 0);
    AnswersYes(c.vs, m);
    DeliveredRest(c, s, f);
    assert FollowerStepAt(c, s, f, 0) == WithVote(d, tx.id, f, Some(true));
  }

  lemma DeliveredRest(c: Config, s: System, f: string)
    requires Ok(c, s) && f in s.inbox && s.inbox[f] != []
    ensures var d := Delivered(c, s, f, 0); d.proposer == s.proposer && d.mailbox == s.mailbox
  {
  }

  lemma AnswersYes(vs: map<string, Validator>, m: Message)
    requires m.Proposal? && m.target == m.tx.id && SubmitCheck(New(vs), m.tx).None?
    ensures Answer(New(vs), m) == Some(true)
  {
    SubmitShape(New(vs), m.tx);
  }

  lemma CopiesVote(c: Config, s: System, tx: Transaction, f: string)
    requires Ok(c, s) && Stage(c, s, tx, f, 2)
    ensures Stage(c, Next(c, s, CopyVote(0)), tx, f, 3)
  {
    NextOfNetwork(c, s, CopyVote(0));
    assert NetworkStep(c, s, CopyVote(0)) == s.(mailbox := s.mailbox + [VoteMsg(tx.id, f, true)]);
  }

  lemma CountsVote(c: Config, s: System, tx: Transaction, f: string, k: nat)
    requires c.self !in c.followers && f in c.followers && Ok(c, s) && c.n == 5 && 3 <= k < 5 && Stage(c, s, tx, f, k)
    ensures Stage(c, ProposerStepAt(c, s, 0), tx, f, k + 1)
  {
    var v := VoteMsg(tx.id, f, true);
    assert RemoveAt([v, v], 0) == [v] && RemoveAt([v], 0) == [];
    TakeShape(c, s, 0);
    CountsYes(s.proposer.phase, v);
  }

  lemma CountsYes(ph: Phase, v: Message)
    requires ph.Collecting? && v.VoteMsg? && v.yes
    ensures CountVote(ph, v).collected == ph.collected + 1 && CountVote(ph, v).yesVotes == ph.yesVotes + 1
    ensures CountVote(ph, v).yesVoters == ph.yesVoters + {v.voter}
    ensures CountVote(ph, v).repeats == ph.repeats + if v.voter in ph.yesVoters then 1 else 0
  {
  }

  lemma EndsConfirmed(c: Config, s: System, tx: Transaction, f: string)
    requires Ok(c, s) && Inv(c, s) && c.n == 5 && Stage(c, s, tx, f, 5)
    ensures ConfirmedByTwo(c, EndStep(c, s), tx.id, f)
  {
    FinishOk(c.vs, s.log, s.proposer, c.n);
    TwoOfFive({c.self, f}, c.self, f);
  }

  lemma TwoOfFive<T>(voters: set<T>, a: T, b: T)
    requires voters == {a, b}
    ensures |voters| <= 2
  {
    assert voters - {a} <= {b};
    SubsetSize(voters - {a}, {b});
  }

  /** Start, vote, the network's copy of that vote, and the proposer counting both. */
  function CopyLabel(tx: Transaction, f: string, k: nat): Label {
    if k == 0 then Start(tx, tx.id)
    else if k == 1 then FollowerTakes(f, 0)
    else if k == 2 then CopyVote(0)
    else if k < 5 then ProposerTakes(0)
    else End
  }

  lemma StartsRun(c: Config, tx: Transaction, f: string) returns (labels: seq<Label>)
    requires f in c.followers && c.self in c.vs && SubmitCheck(New(c.vs), tx).None?
    ensures var s := Protocol.Run(c, labels); Stage(c, s, tx, f, 1) && Waiting(c, s, tx, f)
  {
    labels := [Start(tx, tx.id)];
    FirstRound(c, tx, f);
    StartNext(c, tx);
  }

  lemma StartNext(c: Config, tx: Transaction)
    requires SubmitCheck(New(c.vs), tx).None?
    ensures Protocol.Run(c, [Start(tx, tx.id)]) == StartStep(c, Init(c), tx, tx.id)
  {
    RunSnoc(c, [], Start(tx, tx.id));
    assert [] + [Start(tx, tx.id)] == [Start(tx, tx.id)];
    assert Enabled(Init(c), Start(tx, tx.id));
  }

  lemma StageStep(c: Config, s: System, tx: Transaction, f: string, k: nat)
    requires c.self !in c.followers && f in c.followers && Ok(c, s) && c.n == 5 && 1 <= k < 5
    requires Stage(c, s, tx, f, k) && (k == 1 ==> Waiting(c, s, tx, f))
    ensures Stage(c, Next(c, s, CopyLabel(tx, f, k)), tx, f, k + 1)
  {
    if k == 1 {
      VotesYes(c, s, tx, f);
      TakesNext(c, s, f);
    } else if k == 2 {
      CopiesVote(c, s, tx, f);
    } else {
      CountsVote(c, s, tx, f, k);
      CountsNext(c, s);
    }
  }

  lemma TakesNext(c: Config, s: System, f: string)
    requires Ok(c, s) && f in s.inbox && s.inbox[f] != []
    ensures Next(c, s, FollowerTakes(f, 0)) == FollowerStepAt(c, s, f, 0)
  {
    NextOfNode(c, s, FollowerTakes(f, 0));
  }

  lemma CountsNext(c: Config, s: System)
    requires Ok(c, s) && s.proposer.phase.Collecting? && s.mailbox != []
    ensures Next(c, s, ProposerTakes(0)) == ProposerStepAt(c, s, 0)
  {
    NextOfNode(c, s, ProposerTakes(0));
  }

  lemma StageAfter(c: Config, labels: seq<Label>, tx: Transaction, f: string, k: nat)
    requires c.self !in c.followers && f in c.followers && c.n == 5 && 1 <= k < 5
    requires var s := Protocol.Run(c, labels); Stage(c, s, tx, f, k) && (k == 1 ==> Waiting(c, s, tx, f))
    ensures Stage(c, Protocol.Run(c, labels + [CopyLabel(tx, f, k)]), tx, f, k + 1)
  {
    StageStep(c, Protocol.Run(c, labels), tx, f, k);
    RunSnoc(c, labels, CopyLabel(tx, f, k));
  }

  lemma {:induction false} CopyStages(c: Config, tx: Transaction, f: string, k: nat) returns (labels: seq<Label>)
    requires c.self !in c.followers && f in c.followers && c.n == 5 && 1 <= k <= 5
    requires c.self in c.vs && SubmitCheck(New(c.vs), tx).None?
    ensures Stage(c, Protocol.Run(c, labels), tx, f, k) && (k == 1 ==> Waiting(c, Protocol.Run(c, labels), tx, f))
  {
    if k == 1 {
      labels := StartsRun(c, tx, f);
    } else {
      var before := CopyStages(c, tx, f, k - 1);
      StageAfter(c, before, tx, f, k - 1);
      labels := before + [CopyLabel(tx, f, k - 1)];
    }
  }

  /** Confirmed by the votes of self and f alone, three of them counted, which is no quorum. */
  ghost predicate ConfirmedByTwo(c: Config, s: System, id: string, f: string) {
    && id in s.proposer.ledger.confirmed && id in s.backing && s.backing[id] == Tally({c.self, f}, 3, 1)
    && !IsQuorum(c, s.castYes, s.backing[id].voters, id)
  }

  /** Among five validators, two voters confirm any payable transaction when the vote of one of them is copied. */
  lemma CopiedVoteMakesAMajority(c: Config, tx: Transaction, f: string) returns (labels: seq<Label>)
    requires c.self !in c.followers && f in c.followers && c.n == 5
    requires c.self in c.vs && SubmitCheck(New(c.vs), tx).None?
    ensures ConfirmedByTwo(c, Protocol.Run(c, labels), tx.id, f)
  {
    var before := CopyStages(c, tx, f, 5);
    EndsAfter(c, before, tx, f);
    labels := before + [End];
  }

  lemma EndsAfter(c: Config, labels: seq<Label>, tx: Transaction, f: string)
    requires c.n == 5 && Stage(c, Protocol.Run(c, labels), tx, f, 5)
    ensures ConfirmedByTwo(c, Protocol.Run(c, labels + [End]), tx.id, f)
  {
    var s := Protocol.Run(c, labels);
    RunInv(c, labels);
    EndsConfirmed(c, s, tx, f);
    EndNext(c, s);
    RunSnoc(c, labels, End);
  }

  lemma EndNext(c: Config, s: System)
    requires Ok(c, s) && s.proposer.phase.Collecting?
    ensures Next(c, s, End) == EndStep(c, s)
  {
    NextOfNode(c, s, End);
  }
}
