/** What the in-process transport does to its queues is what the protocol's network may do. */
module Network {
  import opened Base
  import opened NodeModel
  import opened Protocol
  import opened TransportModel

  type Queues = map<string, seq<Message>>

  /** The transport's queues are the followers' inboxes and the proposer's mailbox. */
  predicate Carries(c: Config, inbox: Queues, mailbox: seq<Message>, queues: Queues) {
    && queues.Keys == c.followers + {c.self} && inbox.Keys == c.followers
    && queues[c.self] == mailbox
    && forall f <- c.followers :: queues[f] == inbox[f]
  }

  ghost function Steps(c: Config, s: System, labels: seq<Label>): (r: System)
    requires Ok(c, s)
    ensures Ok(c, r)
  {
    if labels == [] then s else Next(c, Steps(c, s, labels[..|labels| - 1]), labels[|labels| - 1])
  }

  lemma StepsSnoc(c: Config, s: System, labels: seq<Label>, l: Label)
    requires Ok(c, s)
    ensures Steps(c, s, labels + [l]) == Next(c, Steps(c, s, labels), l)
  {
    assert (labels + [l])[..|labels|] == labels;
  }

  /** The queues when the last message is missing from those in lost. */
  function WithoutLast(inbox: Queues, lost: set<string>): Queues {
    map f | f in inbox :: if f in lost && inbox[f] != [] then inbox[f][..|inbox[f]| - 1] else inbox[f]
  }

  lemma LoseOne(c: Config, s: System, f: string)
    requires Ok(c, s) && f in c.followers && s.inbox[f] != []
    ensures var q := s.inbox[f];
            Next(c, s, LoseAt(f, |q| - 1)) == s.(inbox := s.inbox[f := q[..|q| - 1]])
  {
    var q := s.inbox[f];
    NextLoses(c, s, f, |q| - 1);
    LastRemoved(q);
    InboxReplaced(c, s, f, q[..|q| - 1]);
  }

  lemma InboxReplaced(c: Config, s: System, f: string, q: seq<Message>)
    requires Ok(c, s) && f in s.inbox
    ensures WithInbox(c, s, f, q) == s.(inbox := s.inbox[f := q])
  {
  }

  lemma LastRemoved<T>(q: seq<T>)
    requires q != []
    ensures RemoveAt(q, |q| - 1) == q[..|q| - 1]
  {
  }

  lemma NextLoses(c: Config, s: System, f: string, k: nat)
    requires Ok(c, s) && f in s.inbox && k < |s.inbox[f]|
    ensures Next(c, s, LoseAt(f, k)) == WithInbox(c, s, f, RemoveAt(s.inbox[f], k))
  {
    var l := LoseAt(f, k);
    NextOfNetwork(c, s, l);
    assert NetworkStep(c, s, l) == WithInbox(c, s, f, RemoveAt(s.inbox[f], k));
  }

  lemma WithoutOneMore(inbox: Queues, lost: set<string>, f: string)
    requires f in lost && f in inbox && inbox[f] != []
    ensures WithoutLast(inbox, lost - {f})[f] == inbox[f]
    ensures WithoutLast(inbox, lost - {f})[f := inbox[f][..|inbox[f]| - 1]] == WithoutLast(inbox, lost)
  {
  }

  ghost predicate OnlyLosses(labels: seq<Label>, lost: set<string>) {
    forall l <- labels :: l.LoseAt? && l.f in lost
  }

  lemma OnlyLossesSnoc(labels: seq<Label>, lost: set<string>, f: string, k: nat)
    requires f in lost && OnlyLosses(labels, lost - {f})
    ensures OnlyLosses(labels + [LoseAt(f, k)], lost)
  {
  }

  lemma {:induction false} LoseLast(c: Config, s: System, lost: set<string>) returns (labels: seq<Label>)
    requires Ok(c, s) && lost <= c.followers && forall f <- lost :: s.inbox[f] != []
    ensures Steps(c, s, labels) == s.(inbox := WithoutLast(s.inbox, lost))
    ensures OnlyLosses(labels, lost)
    decreases |lost|
  {
    if lost == {} {
      labels := [];
      assert WithoutLast(s.inbox, lost) == s.inbox;
    } else {
      var f :| f in lost;
      var k := |s.inbox[f]| - 1;
      var rest := LoseLast(c, s, lost - {f});
      LoseNext(c, s, rest, lost, f);
      OnlyLossesSnoc(rest, lost, f, k);
      labels := rest + [LoseAt(f, k)];
    }
  }

  lemma LoseNext(c: Config, s: System, labels: seq<Label>, lost: set<string>, f: string)
    requires Ok(c, s) && f in lost && f in c.followers && s.inbox[f] != []
    requires Steps(c, s, labels) == s.(inbox := WithoutLast(s.inbox, lost - {f}))
    ensures Steps(c, s, labels + [LoseAt(f, |s.inbox[f]| - 1)]) == s.(inbox := WithoutLast(s.inbox, lost))
  {
    StepsSnoc(c, s, labels, LoseAt(f, |s.inbox[f]| - 1));
    WithoutOneMore(s.inbox, lost, f);
    LoseOne(c, Steps(c, s, labels), f);
  }

  lemma BroadcastQueues(c: Config, inbox: Queues, mailbox: seq<Message>, m: Message, queues: Queues,
                        reached: set<string>)
    requires Carries(c, inbox, mailbox, queues) && c.self !in c.followers
    ensures var sent := map f | f in inbox :: inbox[f] + [m];
            Carries(c, WithoutLast(sent, c.followers - reached), mailbox, AfterBroadcast(queues, c.self, reached, m))
  {
  }

  /**
   A broadcast over the transport, whoever could not be reached, is the protocol's broadcast followed by
   losses at the unreachable followers; every theorem about runs with losses covers it.
   */
  lemma BroadcastIsNetwork(c: Config, s: System, m: Message, queues: Queues, reached: set<string>)
    returns (labels: seq<Label>)
    requires Ok(c, s) && Carries(c, s.inbox, s.mailbox, queues) && c.self !in c.followers
    ensures OnlyLosses(labels, c.followers - reached)
    ensures Ok(c, Broadcast(s, Some(m)))
    ensures var r := Steps(c, Broadcast(s, Some(m)), labels);
            Carries(c, r.inbox, r.mailbox, AfterBroadcast(queues, c.self, reached, m))
  {
    labels := LoseLast(c, Broadcast(s, Some(m)), c.followers - reached);
    BroadcastQueues(c, s.inbox, s.mailbox, m, queues, reached);
  }

  /** A vote sent over the transport reaches the mailbox, or is sent and lost. */
  lemma VoteIsNetwork(c: Config, s: System, f: string, id: string, yes: bool, queues: Queues)
    requires Ok(c, s) && Carries(c, s.inbox, s.mailbox, queues) && c.self !in c.followers
    ensures var sent := WithVote(s, id, f, Some(yes));
            && Carries(c, sent.inbox, sent.mailbox, queues[c.self := queues[c.self] + [VoteMsg(id, f, yes)]])
            && Ok(c, sent)
            && var lost := Next(c, sent, LoseVote(|s.mailbox|)); Carries(c, lost.inbox, lost.mailbox, queues)
  {
    var sent := WithVote(s, id, f, Some(yes));
    assert RemoveAt(sent.mailbox, |s.mailbox|) == s.mailbox;
  }

  /** A follower that receives over the transport takes the first message of its queue. */
  lemma ReceiveIsNetwork(c: Config, s: System, f: string, queues: Queues)
    requires Ok(c, s) && Carries(c, s.inbox, s.mailbox, queues)
    requires c.self !in c.followers && f in c.followers && queues[f] != []
    ensures var r := Delivered(c, s, f, 0); Carries(c, r.inbox, r.mailbox, queues[f := queues[f][1..]])
  {
    TakenQueues(c, s, f);
    FirstTaken(c, s.inbox, s.mailbox, f, queues);
  }

  lemma TakenQueues(c: Config, s: System, f: string)
    requires Ok(c, s) && f in c.followers && s.inbox[f] != []
    ensures var r := Delivered(c, s, f, 0); r.inbox == s.inbox[f := s.inbox[f][1..]] && r.mailbox == s.mailbox
  {
    assert RemoveAt(s.inbox[f], 0) == s.inbox[f][1..];
  }

  lemma FirstTaken(c: Config, inbox: Queues, mailbox: seq<Message>, f: string, queues: Queues)
    requires Carries(c, inbox, mailbox, queues) && c.self !in c.followers && f in c.followers && queues[f] != []
    ensures Carries(c, inbox[f := inbox[f][1..]], mailbox, queues[f := queues[f][1..]])
  {
  }
}
