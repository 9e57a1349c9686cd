/**
 What the settlement handlers make of the ledger and of each other: every run of theirs is a run of the
 ledger, and a retry of a settled request is answered with its receipt whatever runs beside it.
 */
module Retry {
  import opened Base
  import opened ReceiptTypes
  import opened LedgerModel
  import opened LedgerRuns
  import opened StoreModel
  import opened Settlement
  import opened ExactlyOnce

  // ----- Every settlement run is a ledger run -----

  /** The ledger operations of a round: a commit, a refused commit and its cleanup, or a cleanup. */
  function RoundOps(s: LedgerState, id: string, majority: bool): (ops: seq<Op>)
    requires Wf(s)
    ensures forall op <- ops :: !op.OpSubmit?
  {
    if RoundCommits(s, id, majority) then [OpCommit(id)]
    else if majority then [OpCommit(id), OpCleanup(id)]
    else [OpCleanup(id)]
  }

  /** The ledger operations of a handler's next critical section. */
  function PcOps(cfg: Config, s: LedgerState, pc: Pc, majority: bool): (ops: seq<Op>)
    requires Wf(s)
    ensures forall op <- ops :: !op.OpSubmit?
  {
    match pc
    case SSubmit(req, id, path) => [OpSubmitIfAbsent(NewTx(cfg, req, id, path))]
    case SRound(_, id, _) => RoundOps(s, id, majority)
    case EAttach(k, r) => [OpAttach(k.txID, r.id)]
    case _ => []
  }

  function LabelOps(cfg: Config, w: World, l: Label): (ops: seq<Op>)
    requires Wf(w.ledger)
    ensures forall op <- ops :: !op.OpSubmit?
  {
    if !Enabled(w, l) then []
    else
      match l
      case Advance(tid, ch) => PcOps(cfg, w.ledger, w.threads[tid], ch.majority)
      case Tick(v) => [OpPropose(v)]
      case _ => []
  }

  /** The ledger operations of a whole run, in order. */
  function Trace(cfg: Config, boot: Boot, labels: seq<Label>): seq<Op> {
    if labels == [] then []
    else
      var n := |labels| - 1;
      Trace(cfg, boot, labels[..n]) + LabelOps(cfg, Reach(cfg, boot, labels[..n]), labels[n])
  }

  lemma RunAppend(s: LedgerState, ops: seq<Op>, op: Op)
    requires Wf(s)
    ensures Run(s, ops + [op]) == LedgerRuns.Step(Run(s, ops), op)
  {
    assert (ops + [op])[..|ops|] == ops;
  }

  lemma RunOne(s: LedgerState, op: Op)
    requires Wf(s)
    ensures Run(s, [op]) == LedgerRuns.Step(s, op)
  {
    RunAppend(s, [], op);
  }

  lemma {:induction false} RunConcat(s: LedgerState, a: seq<Op>, b: seq<Op>)
    requires Wf(s)
    ensures Run(s, a + b) == Run(Run(s, a), b)
    decreases |b|
  {
    if b == [] {
      assert a + b == a;
    } else {
      ConcatLast(a, b);
      RunConcat(s, a, b[..|b| - 1]);
      RunLast(s, a + b);
      RunLast(Run(s, a), b);
    }
  }

  lemma RunLast(s: LedgerState, ops: seq<Op>)
    requires Wf(s) && ops != []
    ensures Run(s, ops) == LedgerRuns.Step(Run(s, ops[..|ops| - 1]), ops[|ops| - 1])
  {
  }

  lemma ConcatLast<T>(a: seq<T>, b: seq<T>)
    requires b != []
    ensures (a + b)[..|a + b| - 1] == a + b[..|b| - 1] && (a + b)[|a + b| - 1] == b[|b| - 1]
  {
  }

  lemma RoundIsRun(s: LedgerState, id: string, majority: bool)
    requires Wf(s)
    ensures RoundLedger(s, id, majority) == Run(s, RoundOps(s, id, majority))
  {
    if RoundCommits(s, id, majority) {
      CommittedRoundIsRun(s, id);
    } else if majority {
      RefusedRoundIsRun(s, id);
    } else {
      CleanedRoundIsRun(s, id);
    }
  }

  lemma CommittedRoundIsRun(s: LedgerState, id: string)
    requires Wf(s)
    ensures Run(s, [OpCommit(id)]) == Commit(s, id)
  {
    CommitIsStep(s, id);
    RunOne(s, OpCommit(id));
  }

  lemma CleanedRoundIsRun(s: LedgerState, id: string)
    requires Wf(s)
    ensures Run(s, [OpCleanup(id)]) == Cleanup(s, id)
  {
    CleanupIsStep(s, id);
    RunOne(s, OpCleanup(id));
  }

  lemma CommitIsStep(s: LedgerState, id: string)
    requires Wf(s)
    ensures LedgerRuns.Step(s, OpCommit(id)) == Commit(s, id)
  {
  }

  lemma CleanupIsStep(s: LedgerState, id: string)
    requires Wf(s)
    ensures LedgerRuns.Step(s, OpCleanup(id)) == Cleanup(s, id)
  {
  }

  lemma RefusedRoundIsRun(s: LedgerState, id: string)
    requires Wf(s)
    ensures Run(s, [OpCommit(id), OpCleanup(id)]) == Cleanup(Commit(s, id), id)
  {
    CommittedRoundIsRun(s, id);
    CleanupIsStep(Commit(s, id), id);
    RunAppend(s, [OpCommit(id)], OpCleanup(id));
    assert [OpCommit(id)] + [OpCleanup(id)] == [OpCommit(id), OpCleanup(id)];
  }

  lemma SubmitIsRun(cfg: Config, w: World, tid: nat, req: SettleRequest, id: string, path: Path)
    requires Wf(w.ledger)
    ensures SubmitStep(cfg, w, tid, req, id, path).ledger ==
            Run(w.ledger, [OpSubmitIfAbsent(NewTx(cfg, req, id, path))])
  {
    RunOne(w.ledger, OpSubmitIfAbsent(NewTx(cfg, req, id, path)));
  }

  lemma AttachIsRun(w: World, tid: nat, k: Ensure, r: Receipt)
    requires Wf(w.ledger)
    ensures AttachStep(w, tid, k, r).ledger == Run(w.ledger, [OpAttach(k.txID, r.id)])
  {
    RunOne(w.ledger, OpAttach(k.txID, r.id));
  }

  lemma AdvanceIsRun(cfg: Config, w: World, tid: nat, ch: Choice)
    requires Wf(w.ledger) && tid in w.threads && ChoiceOk(ch)
    ensures ThreadStep(cfg, w, tid, ch).ledger == Run(w.ledger, PcOps(cfg, w.ledger, w.threads[tid], ch.majority))
  {
    match w.threads[tid]
    case SSubmit(req, id, path) => SubmitIsRun(cfg, w, tid, req, id, path);
    case SRound(_, id, _) => RoundIsRun(w.ledger, id, ch.majority);
    case EAttach(k, r) => AttachIsRun(w, tid, k, r);
    case _ => LedgerUntouched(cfg, w, tid, ch);
  }

  lemma LedgerUntouched(cfg: Config, w: World, tid: nat, ch: Choice)
    requires Wf(w.ledger) && tid in w.threads && ChoiceOk(ch)
    requires var pc := w.threads[tid]; !pc.SSubmit? && !pc.SRound? && !pc.EAttach?
    ensures ThreadStep(cfg, w, tid, ch).ledger == w.ledger
  {
    var pc := w.threads[tid];
    if InEnsure(pc) { EnsureLeavesLedger(cfg, w, tid, pc, ch); }
  }

  lemma EnsureLeavesLedger(cfg: Config, w: World, tid: nat, pc: Pc, ch: Choice)
    requires Wf(w.ledger) && InEnsure(pc) && !pc.EAttach? && ChoiceOk(ch)
    ensures EnsureStep(cfg, w, tid, pc, ch).ledger == w.ledger
  {
  }

  lemma NextIsRun(cfg: Config, w: World, l: Label)
    requires Wf(w.ledger)
    ensures Next(cfg, w, l).ledger == Run(w.ledger, LabelOps(cfg, w, l))
  {
    if Enabled(w, l) {
      match l
      case Advance(tid, ch) => AdvanceIsRun(cfg, w, tid, ch);
      case Tick(v) => RunOne(w.ledger, OpPropose(v));
      case _ =>
    }
  }

  /** The ledger in a reachable state is what the ledger alone makes of the run's operations. */
  lemma {:induction false} SettlementIsLedgerRun(cfg: Config, boot: Boot, labels: seq<Label>)
    ensures Reach(cfg, boot, labels).ledger == Run(New(boot.vs), Trace(cfg, boot, labels))
  {
    if labels != [] {
      var n := |labels| - 1;
      var w := Reach(cfg, boot, labels[..n]);
      SettlementIsLedgerRun(cfg, boot, labels[..n]);
      NextIsRun(cfg, w, labels[n]);
      RunConcat(New(boot.vs), Trace(cfg, boot, labels[..n]), LabelOps(cfg, w, labels[n]));
    }
  }

  /**
   Each settlement is debited at most once, in money: in every reachable state a balance is the initial
   one plus confirmed incoming minus confirmed outgoing amounts over a history that lists each ID once,
   no balance is negative and no currency's total has changed.
   */
  lemma SettlementsReconcile(cfg: Config, boot: Boot, labels: seq<Label>)
    requires Funded(boot.vs)
    ensures var s := Reach(cfg, boot, labels).ledger;
            && UniqueIds(s.allTxs)
            && Funded(s.validators)
            && (forall c :: Total(s.validators, c) == Total(boot.vs, c))
            && (forall v, c :: Balance(s.validators, v, c) == Balance(boot.vs, v, c) + Net(s.allTxs, v, c))
  {
    SettlementIsLedgerRun(cfg, boot, labels);
    ConservesMoney(boot.vs, Trace(cfg, boot, labels));
    SettlesExactlyOnce(cfg, boot, labels);
  }

  // ----- A retry under any interleaving -----

  /** A retry of a settled request, between its lookup and its answer. */
  predicate OnTrack(cfg: Config, w: World, t: nat, id: string)
    requires Wf(w.ledger)
  {
    && id in w.ledger.confirmed && TxReceipt(w.ledger, id) != "" && t in w.threads
    && var tx := w.ledger.allTxs[w.ledger.confirmed[id]];
       match w.threads[t]
       case SLookup(req, i) => i == id && tx.requestDigest == Digest(cfg, req, id) != ""
       case EFirst(k) => k.txID == id
       case ELoad(k, rid) => k.txID == id && rid == TxReceipt(w.ledger, id)
       case Done(Settled(i, r)) => i == id && r.id == TxReceipt(w.ledger, id)
       case _ => false
  }

  /** The critical sections a retry still has to pass. */
  function Distance(pc: Pc): nat {
    match pc
    case SLookup(_, _) => 3
    case EFirst(_) => 2
    case ELoad(_, _) => 1
    case _ => 0
  }

  /** Label l lets thread t take a step. */
  predicate Moves(l: Label, t: nat) { l.Advance? && l.tid == t && ChoiceOk(l.choice) }

  /** The store answers thread t's reads in this run. */
  ghost predicate ReadsSucceed(labels: seq<Label>, t: nat) {
    forall l <- labels :: l.Advance? && l.tid == t ==> !l.choice.lookupFails
  }

  function MovesOf(labels: seq<Label>, t: nat): nat {
    if labels == [] then 0
    else MovesOf(labels[..|labels| - 1], t) + if Moves(labels[|labels| - 1], t) then 1 else 0
  }

  /** A confirmed ID with its transaction's digest, and not pending a second time. */
  predicate Settles(s: LedgerState, id: string, digest: string)
    requires Wf(s)
  {
    id in s.confirmed && id !in s.pending && s.allTxs[s.confirmed[id]].requestDigest == digest
  }

  lemma StepKeepsSettled(s: LedgerState, op: Op, id: string, digest: string)
    requires Wf(s) && Settles(s, id, digest) && id in s.seen && !op.OpSubmit?
    ensures var r := LedgerRuns.Step(s, op); Settles(r, id, digest) && id in r.seen
  {
  }

  lemma {:induction false} RunKeepsSettled(s: LedgerState, ops: seq<Op>, id: string, digest: string)
    requires Wf(s) && Settles(s, id, digest) && id in s.seen && forall op <- ops :: !op.OpSubmit?
    ensures var r := Run(s, ops); Settles(r, id, digest) && id in r.seen
    decreases |ops|
  {
    if ops != [] {
      var n := |ops| - 1;
      RunKeepsSettled(s, ops[..n], id, digest);
      StepKeepsSettled(Run(s, ops[..n]), ops[n], id, digest);
    }
  }

  /** One step of its own brings a retry one critical section closer to its answer. */
  lemma OwnStep(cfg: Config, w: World, t: nat, id: string, ch: Choice)
    requires ExactlyOnce.Inv(w) && OnTrack(cfg, w, t, id) && ChoiceOk(ch) && !ch.lookupFails
    ensures Closer(cfg, w, ThreadStep(cfg, w, t, ch), t, id)
  {
    match w.threads[t]
    case SLookup(req, _) => OwnLookup(cfg, w, t, id, req, ch);
    case EFirst(k) => OwnFirst(cfg, w, t, id, k, ch);
    case ELoad(k, rid) => OwnLoad(cfg, w, t, id, k, rid, ch);
    case Done(_) =>
  }

  ghost predicate Closer(cfg: Config, w: World, r: World, t: nat, id: string)
    requires Wf(w.ledger) && t in w.threads
  {
    && r.ledger == w.ledger && OnTrack(cfg, r, t, id)
    && Distance(r.threads[t]) == if Distance(w.threads[t]) == 0 then 0 else Distance(w.threads[t]) - 1
  }

  lemma OwnLookup(cfg: Config, w: World, t: nat, id: string, req: SettleRequest, ch: Choice)
    requires Wf(w.ledger) && OnTrack(cfg, w, t, id) && w.threads[t] == SLookup(req, id) && ChoiceOk(ch)
    ensures Closer(cfg, w, ThreadStep(cfg, w, t, ch), t, id)
  {
    var pc := AfterLookup(cfg, req, id, Lookup(w.ledger, id), ch.replayed);
    FoundSettled(cfg, w.ledger, id, req, ch.replayed);
    assert ThreadStep(cfg, w, t, ch) == Goto(w, t, pc);
  }

  lemma FoundSettled(cfg: Config, s: LedgerState, id: string, req: SettleRequest, replayed: bool)
    requires Wf(s) && id in s.confirmed && s.allTxs[s.confirmed[id]].requestDigest == Digest(cfg, req, id) != ""
    ensures var pc := AfterLookup(cfg, req, id, Lookup(s, id), replayed); pc.EFirst? && pc.k.txID == id
  {
  }

  lemma OwnFirst(cfg: Config, w: World, t: nat, id: string, k: Ensure, ch: Choice)
    requires Wf(w.ledger) && OnTrack(cfg, w, t, id) && w.threads[t] == EFirst(k) && ChoiceOk(ch)
    ensures Closer(cfg, w, ThreadStep(cfg, w, t, ch), t, id)
  {
    assert FirstPc(w.ledger, k) == ELoad(k, TxReceipt(w.ledger, id));
    assert ThreadStep(cfg, w, t, ch) == Goto(w, t, ELoad(k, TxReceipt(w.ledger, id)));
  }

  lemma OwnLoad(cfg: Config, w: World, t: nat, id: string, k: Ensure, rid: string, ch: Choice)
    requires ExactlyOnce.Inv(w) && OnTrack(cfg, w, t, id) && w.threads[t] == ELoad(k, rid)
    requires ChoiceOk(ch) && !ch.lookupFails
    ensures Closer(cfg, w, ThreadStep(cfg, w, t, ch), t, id)
  {
    assert ReceiptFor(w.store, rid, id);
    FoundIsLogged(w.store, rid, id, 0);
    assert Loaded(w, k, rid, false) == Settled(id, FindByID(w.store, rid).value);
    LoadThread(cfg, w, t, k, rid, ch);
  }

  lemma LoadThread(cfg: Config, w: World, t: nat, k: Ensure, rid: string, ch: Choice)
    requires Wf(w.ledger) && t in w.threads && w.threads[t] == ELoad(k, rid) && ChoiceOk(ch)
    ensures ThreadStep(cfg, w, t, ch) == Goto(w, t, Done(Loaded(w, k, rid, ch.lookupFails)))
  {
  }

  /** From w to r only thread tid may have moved. */
  predicate OnlyMoves(w: World, r: World, tid: nat) {
    && r.threads.Keys == w.threads.Keys + {tid}
    && forall u <- w.threads :: u != tid ==> r.threads[u] == w.threads[u]
  }

  lemma SettleMovesOne(cfg: Config, w: World, tid: nat, pc: Pc, ch: Choice)
    requires Wf(w.ledger) && InSettle(pc)
    ensures OnlyMoves(w, SettleStep(cfg, w, tid, pc, ch), tid)
  {
    if pc.SSubmit? { SubmitMovesOne(cfg, w, tid, pc.req, pc.id, pc.vetted); }
  }

  lemma SubmitMovesOne(cfg: Config, w: World, tid: nat, req: SettleRequest, id: string, path: Path)
    requires Wf(w.ledger)
    ensures OnlyMoves(w, SubmitStep(cfg, w, tid, req, id, path), tid)
  {
  }

  lemma EnsureMovesOne(cfg: Config, w: World, tid: nat, pc: Pc, ch: Choice)
    requires Wf(w.ledger) && InEnsure(pc) && ChoiceOk(ch) && tid in w.threads
    ensures OnlyMoves(w, EnsureStep(cfg, w, tid, pc, ch), tid)
  {
    match pc
    case EIssue(k, path) => IssueMovesOne(cfg, w, tid, k, path, ch);
    case ESecond(k) => SecondMovesOne(cfg, w, tid, k);
    case EAttach(k, r) => AttachMovesOne(w, tid, k, r);
    case _ =>
  }

  lemma AttachMovesOne(w: World, tid: nat, k: Ensure, r: Receipt)
    requires Wf(w.ledger)
    ensures OnlyMoves(w, AttachStep(w, tid, k, r), tid)
  {
  }

  lemma SecondMovesOne(cfg: Config, w: World, tid: nat, k: Ensure)
    requires Wf(w.ledger)
    ensures OnlyMoves(w, SecondStep(cfg, w, tid, k), tid)
  {
  }

  lemma IssueMovesOne(cfg: Config, w: World, tid: nat, k: Ensure, path: Path, ch: Choice)
    requires ChoiceOk(ch)
    ensures OnlyMoves(w, IssueStep(cfg, w, tid, k, path, ch), tid)
  {
  }

  lemma CheckMovesOne(cfg: Config, w: World, tid: nat, id: string, policyID: string, path: Path, ch: Choice)
    requires ChoiceOk(ch)
    ensures OnlyMoves(w, CheckIssueStep(cfg, w, tid, id, policyID, path, ch), tid)
  {
  }

  lemma StepMovesOne(cfg: Config, w: World, tid: nat, ch: Choice)
    requires Wf(w.ledger) && tid in w.threads && ChoiceOk(ch)
    ensures OnlyMoves(w, ThreadStep(cfg, w, tid, ch), tid)
  {
    var pc := w.threads[tid];
    if InSettle(pc) { SettleMovesOne(cfg, w, tid, pc, ch); }
    else if InEnsure(pc) { EnsureMovesOne(cfg, w, tid, pc, ch); }
    else if pc.CIssue? { CheckMovesOne(cfg, w, tid, pc.id, pc.policyID, pc.vetted, ch); }
  }

  /** Other threads never move t. */
  lemma OthersLeave(cfg: Config, w: World, t: nat, l: Label)
    requires Wf(w.ledger) && t in w.threads && !Moves(l, t)
    ensures var r := Next(cfg, w, l); t in r.threads && r.threads[t] == w.threads[t]
  {
    if Enabled(w, l) && l.Advance? { StepMovesOne(cfg, w, l.tid, l.choice); }
  }

  lemma ConfirmedSettles(s: LedgerState, id: string)
    requires Wf(s) && Lifecycle(s) && id in s.confirmed
    ensures Settles(s, id, s.allTxs[s.confirmed[id]].requestDigest) && id in s.seen
  {
    assert Filed(s.allTxs[s.confirmed[id]], s.pending.Keys, s.confirmed.Keys);
  }

  lemma NextKeepsSettled(cfg: Config, w: World, l: Label, id: string)
    requires Wf(w.ledger) && Lifecycle(w.ledger) && id in w.ledger.confirmed
    ensures Settles(Next(cfg, w, l).ledger, id, w.ledger.allTxs[w.ledger.confirmed[id]].requestDigest)
  {
    ConfirmedSettles(w.ledger, id);
    NextIsRun(cfg, w, l);
    RunKeepsSettled(w.ledger, LabelOps(cfg, w, l), id, w.ledger.allTxs[w.ledger.confirmed[id]].requestDigest);
  }

  lemma NextKeepsReceipt(cfg: Config, w: World, l: Label, id: string)
    requires ExactlyOnce.Inv(w) && TxReceipt(w.ledger, id) != ""
    ensures TxReceipt(Next(cfg, w, l).ledger, id) == TxReceipt(w.ledger, id)
  {
    NextKeepsInv(cfg, w, l);
  }

  lemma OthersStep(cfg: Config, w: World, t: nat, id: string, l: Label)
    requires ExactlyOnce.Inv(w) && OnTrack(cfg, w, t, id) && !Moves(l, t)
    ensures var r := Next(cfg, w, l);
            OnTrack(cfg, r, t, id) && r.threads[t] == w.threads[t] && TxReceipt(r.ledger, id) == TxReceipt(w.ledger, id)
  {
    OthersLeave(cfg, w, t, l);
    NextKeepsReceipt(cfg, w, l, id);
    NextKeepsSettled(cfg, w, l, id);
  }

  function Left(distance: nat, moves: nat): nat { if moves < distance then distance - moves else 0 }

  lemma TrackStep(cfg: Config, w: World, t: nat, id: string, l: Label)
    requires ExactlyOnce.Inv(w) && OnTrack(cfg, w, t, id) && (Moves(l, t) ==> !l.choice.lookupFails)
    ensures var r := Next(cfg, w, l);
            && OnTrack(cfg, r, t, id) && TxReceipt(r.ledger, id) == TxReceipt(w.ledger, id)
            && Distance(r.threads[t]) == Left(Distance(w.threads[t]), if Moves(l, t) then 1 else 0)
  {
    if Moves(l, t) {
      OwnStep(cfg, w, t, id, l.choice);
    } else {
      OthersStep(cfg, w, t, id, l);
    }
  }

  /** A run is extended by one step. */
  lemma ReachNext(cfg: Config, boot: Boot, before: seq<Label>, labels: seq<Label>)
    requires labels != []
    ensures var n := |labels| - 1;
            Reach(cfg, boot, before + labels) == Next(cfg, Reach(cfg, boot, before + labels[..n]), labels[n])
  {
    assert (before + labels)[..|before + labels| - 1] == before + labels[..|labels| - 1];
  }

  /** Between w and r a retry has moved on by the given number of its own steps, towards the same receipt. */
  ghost predicate Progress(cfg: Config, w: World, r: World, t: nat, id: string, moves: nat)
    requires Wf(w.ledger) && Wf(r.ledger) && t in w.threads
  {
    && OnTrack(cfg, r, t, id) && TxReceipt(r.ledger, id) == TxReceipt(w.ledger, id)
    && Distance(r.threads[t]) == Left(Distance(w.threads[t]), moves)
  }

  lemma ProgressStep(cfg: Config, w: World, u: World, t: nat, id: string, moves: nat, l: Label)
    requires Wf(w.ledger) && t in w.threads && ExactlyOnce.Inv(u) && Progress(cfg, w, u, t, id, moves)
    requires Moves(l, t) ==> !l.choice.lookupFails
    ensures Progress(cfg, w, Next(cfg, u, l), t, id, moves + if Moves(l, t) then 1 else 0)
  {
    TrackStep(cfg, u, t, id, l);
  }

  /**
   Whatever other handlers, rotations and failures come in between: a retry that finds its request settled
   stays on track and has its answer after three steps of its own.
   */
  lemma {:induction false} StaysOnTrack(cfg: Config, boot: Boot, before: seq<Label>, labels: seq<Label>, t: nat,
                                        id: string)
    requires OnTrack(cfg, Reach(cfg, boot, before), t, id) && ReadsSucceed(labels, t)
    ensures Progress(cfg, Reach(cfg, boot, before), Reach(cfg, boot, before + labels), t, id, MovesOf(labels, t))
    decreases |labels|
  {
    var w := Reach(cfg, boot, before);
    if labels == [] {
      assert before + labels == before;
    } else {
      var n := |labels| - 1;
      StaysOnTrack(cfg, boot, before, labels[..n], t, id);
      ReachInv(cfg, boot, before + labels[..n]);
      ProgressStep(cfg, w, Reach(cfg, boot, before + labels[..n]), t, id, MovesOf(labels[..n], t), labels[n]);
      ReachNext(cfg, boot, before, labels);
    }
  }

  /**
   A retry of a settled request with the same digest, under any interleaving in which it gets three steps
   and its reads succeed, is answered with exactly the receipt that was attached before it began, and
   that receipt is in the store.
   */
  lemma RetryReturnsTheReceipt(cfg: Config, boot: Boot, before: seq<Label>, labels: seq<Label>, t: nat,
                               req: SettleRequest, id: string)
    requires var w := Reach(cfg, boot, before);
             && id in w.ledger.confirmed && TxReceipt(w.ledger, id) != ""
             && w.ledger.allTxs[w.ledger.confirmed[id]].requestDigest == Digest(cfg, req, id) != ""
             && t in w.threads && w.threads[t] == SLookup(req, id)
    requires ReadsSucceed(labels, t) && MovesOf(labels, t) >= 3
    ensures var w, r := Reach(cfg, boot, before), Reach(cfg, boot, before + labels);
            exists rc :: t in r.threads && r.threads[t] == Done(Settled(id, rc)) && rc in r.store
                && rc.id == TxReceipt(w.ledger, id)
  {
    var r := Reach(cfg, boot, before + labels);
    StaysOnTrack(cfg, boot, before, labels, t, id);
    SettlesExactlyOnce(cfg, boot, before + labels);
    var answer := r.threads[t].response;
    assert Reported(r, answer);
    FoundIsLogged(r.store, answer.receipt.id, id, 0);
  }

  // ----- An answer that is never given -----

  const DUPLICATE := Done(Failed("DUPLICATE_TX"))

  /** A request on its way always names a sender, and nobody has been told that a transaction is a duplicate. */
  predicate AnswerOk(pc: Pc) {
    && pc != DUPLICATE
    && (pc.SLookup? || pc.SSubmit? ==> pc.req.from != "")
  }

  /** What the ledger hands back for an ID is confirmed, pending, or a stub that names no sender. */
  lemma ExistingAnswer(cfg: Config, s: LedgerState, req: SettleRequest, id: string, path: Option<Path>)
    requires Wf(s) && Existing(s, id).Some? && req.from != ""
    ensures AnswerOk(OnExisting(cfg, Existing(s, id).value, req, id, path))
  {
  }

  lemma LookupAnswer(cfg: Config, s: LedgerState, req: SettleRequest, id: string, replayed: bool)
    requires Wf(s) && req.from != ""
    ensures AnswerOk(AfterLookup(cfg, req, id, Lookup(s, id), replayed))
  {
  }

  predicate AnswerAt(w: World, t: nat) { t in w.threads && AnswerOk(w.threads[t]) }

  lemma SettleAnswer(cfg: Config, w: World, tid: nat, pc: Pc, ch: Choice)
    requires Wf(w.ledger) && InSettle(pc) && AnswerOk(pc)
    ensures AnswerAt(SettleStep(cfg, w, tid, pc, ch), tid)
  {
    match pc
    case SLookup(req, id) => LookupAnswer(cfg, w.ledger, req, id, ch.replayed);
    case SSubmit(req, id, path) => SubmitAnswer(cfg, w, tid, req, id, path);
    case SRound(_, _, _) =>
  }

  lemma SubmitAnswer(cfg: Config, w: World, tid: nat, req: SettleRequest, id: string, path: Path)
    requires Wf(w.ledger) && req.from != ""
    ensures AnswerAt(SubmitStep(cfg, w, tid, req, id, path), tid)
  {
    if id in w.ledger.seen { ExistingAnswer(cfg, w.ledger, req, id, Some(path)); }
  }

  lemma EnsureAnswer(cfg: Config, w: World, tid: nat, pc: Pc, ch: Choice)
    requires Wf(w.ledger) && InEnsure(pc) && ChoiceOk(ch) && tid in w.threads && w.threads[tid] == pc
    ensures AnswerAt(EnsureStep(cfg, w, tid, pc, ch), tid)
  {
    match pc
    case EIssue(k, path) => IssueAnswer(cfg, w, tid, k, path, ch);
    case ESecond(k) => SecondAnswer(cfg, w, tid, k);
    case EFirst(k) => FirstAnswer(w.ledger, k);
    case _ =>
  }

  lemma FirstAnswer(s: LedgerState, k: Ensure)
    requires Wf(s)
    ensures AnswerOk(FirstPc(s, k))
  {
  }

  lemma SecondAnswer(cfg: Config, w: World, tid: nat, k: Ensure)
    requires Wf(w.ledger)
    ensures AnswerAt(SecondStep(cfg, w, tid, k), tid)
  {
    SecondPcAnswer(cfg, w.ledger, k);
  }

  lemma SecondPcAnswer(cfg: Config, s: LedgerState, k: Ensure)
    requires Wf(s)
    ensures AnswerOk(SecondPc(cfg, s, k))
  {
  }

  lemma IssueAnswer(cfg: Config, w: World, tid: nat, k: Ensure, path: Path, ch: Choice)
    requires ChoiceOk(ch)
    ensures AnswerAt(IssueStep(cfg, w, tid, k, path, ch), tid)
  {
  }

  lemma CheckAnswer(cfg: Config, w: World, tid: nat, id: string, policyID: string, path: Path, ch: Choice)
    requires ChoiceOk(ch)
    ensures AnswerAt(CheckIssueStep(cfg, w, tid, id, policyID, path, ch), tid)
  {
  }

  lemma CheckLookupAnswer(cfg: Config, s: LedgerState, q: CheckRequest, id: string, replayed: bool)
    requires Wf(s)
    ensures AnswerOk(CheckLookupPc(cfg, s, q, id, replayed))
  {
  }

  lemma StepAnswer(cfg: Config, w: World, tid: nat, ch: Choice)
    requires Wf(w.ledger) && tid in w.threads && ChoiceOk(ch) && AnswerOk(w.threads[tid])
    ensures AnswerAt(ThreadStep(cfg, w, tid, ch), tid)
  {
    var pc := w.threads[tid];
    if InSettle(pc) { SettleAnswer(cfg, w, tid, pc, ch); }
    else if InEnsure(pc) { EnsureAnswer(cfg, w, tid, pc, ch); }
    else if pc.CIssue? { CheckAnswer(cfg, w, tid, pc.id, pc.policyID, pc.vetted, ch); }
    else if pc.CLookup? { CheckLookupAnswer(cfg, w.ledger, pc.check, pc.id, ch.replayed); }
  }

  ghost predicate AnswersOk(w: World) { forall t <- w.threads :: AnswerOk(w.threads[t]) }

  lemma NextAnswers(cfg: Config, w: World, l: Label)
    requires Wf(w.ledger) && AnswersOk(w)
    ensures AnswersOk(Next(cfg, w, l))
  {
    if !Enabled(w, l) || l.RotateKey? || l.Tick? { return; }
    var r := Next(cfg, w, l);
    if l.Advance? { StepAnswer(cfg, w, l.tid, l.choice); }
    forall t <- r.threads ensures AnswerOk(r.threads[t]) {
      if t != l.tid { OthersKept(cfg, w, l, t); }
    }
  }

  lemma OthersKept(cfg: Config, w: World, l: Label, t: nat)
    requires Wf(w.ledger) && Enabled(w, l) && !l.RotateKey? && !l.Tick? && t != l.tid && t in Next(cfg, w, l).threads
    ensures t in w.threads && Next(cfg, w, l).threads[t] == w.threads[t]
  {
    if l.Advance? { StepMovesOne(cfg, w, l.tid, l.choice); }
  }

  /** No request is ever answered DUPLICATE_TX, whatever the interleaving. */
  lemma {:induction false} DuplicateIsNeverAnswered(cfg: Config, boot: Boot, labels: seq<Label>)
    ensures var w := Reach(cfg, boot, labels); forall t <- w.threads :: w.threads[t] != Done(Failed("DUPLICATE_TX"))
    ensures AnswersOk(Reach(cfg, boot, labels))
  {
    if labels != [] {
      var n := |labels| - 1;
      DuplicateIsNeverAnswered(cfg, boot, labels[..n]);
      NextAnswers(cfg, Reach(cfg, boot, labels[..n]), labels[n]);
    }
  }

  // ----- A retry of a rejected ID -----

  /** An ID that was seen and is neither pending nor confirmed: its transaction was rejected. */
  predicate Refused(s: LedgerState, id: string) {
    id in s.seen && id !in s.pending && id !in s.confirmed
  }

  lemma StepKeepsRefused(s: LedgerState, op: Op, id: string)
    requires Wf(s) && Refused(s, id) && !op.OpSubmit?
    ensures Refused(LedgerRuns.Step(s, op), id)
  {
  }

  lemma {:induction false} RunKeepsRefused(s: LedgerState, ops: seq<Op>, id: string)
    requires Wf(s) && Refused(s, id) && forall op <- ops :: !op.OpSubmit?
    ensures Refused(Run(s, ops), id)
    decreases |ops|
  {
    if ops != [] {
      var n := |ops| - 1;
      RunKeepsRefused(s, ops[..n], id);
      StepKeepsRefused(Run(s, ops[..n]), ops[n], id);
    }
  }

  /** The answers of the gate. */
  predicate GateRefusal(r: Response) {
    || r == Failed("UNKNOWN_POLICY") || r == Failed("INVALID_REQUEST") || r == Failed("INTERNAL_ERROR")
    || r == NonCompliant
  }

  /** A handler with a rejected ID: before the gate, past it, or refused by the gate or as a conflict. */
  predicate Doomed(pc: Pc, id: string) {
    match pc
    case SLookup(req, i) => i == id && req.from != ""
    case SSubmit(req, i, _) => i == id && req.from != ""
    case Done(r) => GateRefusal(r) || r == Failed("TX_CONFLICT")
    case _ => false
  }

  lemma DoomedLookup(cfg: Config, s: LedgerState, req: SettleRequest, id: string, replayed: bool)
    requires Wf(s) && Refused(s, id) && req.from != ""
    ensures Doomed(AfterLookup(cfg, req, id, Lookup(s, id), replayed), id)
  {
  }

  lemma DoomedSubmit(cfg: Config, w: World, t: nat, req: SettleRequest, id: string, path: Path)
    requires Wf(w.ledger) && Refused(w.ledger, id) && req.from != ""
    ensures SubmitStep(cfg, w, t, req, id, path) == Goto(w, t, Done(Failed("TX_CONFLICT")))
  {
  }

  lemma DoomedStep(cfg: Config, w: World, t: nat, id: string, ch: Choice)
    requires Wf(w.ledger) && Refused(w.ledger, id) && t in w.threads && Doomed(w.threads[t], id) && ChoiceOk(ch)
    ensures Doomed(ThreadStep(cfg, w, t, ch).threads[t], id)
  {
    match w.threads[t]
    case SLookup(req, _) =>
      DoomedLookup(cfg, w.ledger, req, id, ch.replayed);
      assert ThreadStep(cfg, w, t, ch) == Goto(w, t, AfterLookup(cfg, req, id, Lookup(w.ledger, id), ch.replayed));
    case SSubmit(req, _, path) =>
      DoomedSubmit(cfg, w, t, req, id, path);
      assert ThreadStep(cfg, w, t, ch) == SubmitStep(cfg, w, t, req, id, path);
    case Done(_) =>
  }

  lemma DoomedNext(cfg: Config, w: World, t: nat, id: string, l: Label)
    requires Wf(w.ledger) && Refused(w.ledger, id) && t in w.threads && Doomed(w.threads[t], id)
    ensures var r := Next(cfg, w, l); Refused(r.ledger, id) && t in r.threads && Doomed(r.threads[t], id)
  {
    NextIsRun(cfg, w, l);
    RunKeepsRefused(w.ledger, LabelOps(cfg, w, l), id);
    if Moves(l, t) {
      StepMovesOne(cfg, w, t, l.choice);
      DoomedStep(cfg, w, t, id, l.choice);
    } else {
      OthersLeave(cfg, w, t, l);
    }
  }

  /**
   Whatever runs beside it, a retry of a rejected ID is never settled: it is refused by the gate or, once past
   it, answered TX_CONFLICT.
   */
  lemma {:induction false} RejectedRetryIsRefused(cfg: Config, boot: Boot, before: seq<Label>, labels: seq<Label>,
                                                  t: nat, req: SettleRequest, id: string)
    requires var w := Reach(cfg, boot, before);
             Refused(w.ledger, id) && t in w.threads && w.threads[t] == SLookup(req, id)
    ensures var r := Reach(cfg, boot, before + labels);
            Refused(r.ledger, id) && t in r.threads && Doomed(r.threads[t], id)
    decreases |labels|
  {
    if labels == [] {
      assert before + labels == before;
      DuplicateIsNeverAnswered(cfg, boot, before);
      assert AnswerOk(Reach(cfg, boot, before).threads[t]);
    } else {
      var n := |labels| - 1;
      RejectedRetryIsRefused(cfg, boot, before, labels[..n], t, req, id);
      DoomedNext(cfg, Reach(cfg, boot, before + labels[..n]), t, id, labels[n]);
      ReachNext(cfg, boot, before, labels);
    }
  }
}
