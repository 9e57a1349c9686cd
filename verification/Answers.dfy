/** A settlement is reported only to a request that asks for it, over every interleaving of the handlers. */
module Answers {
  import opened Base
  import opened ReceiptTypes
  import opened LedgerModel
  import opened GeneratorModel
  import opened Settlement
  import opened FailClosed
  import Retry

  /** The same parties, amount, currency, policy and path bytes. */
  predicate SameRequest(a: SettleRequest, b: SettleRequest) {
    && a.from == b.from && a.to == b.to && a.amount == b.amount && a.currency == b.currency
    && a.policyID == b.policyID && Raw(a) == Raw(b)
  }

  type Asks = map<nat, SettleRequest>

  /** Handler t was called with the request that submitted id, or with an equal one. */
  predicate AskedFor(origin: Origins, asked: Asks, t: nat, id: string) {
    t in asked && id in origin && SameRequest(asked[t], origin[id])
  }

  /** What handler t is doing, or has answered, is what it was asked to do. */
  predicate Serves(origin: Origins, asked: Asks, t: nat, pc: Pc) {
    match pc
    case SLookup(req, _) => t in asked && asked[t] == req
    case SSubmit(req, _, _) => t in asked && asked[t] == req
    case SRound(_, id, _) => AskedFor(origin, asked, t, id)
    case EFirst(k) => AskedFor(origin, asked, t, k.txID)
    case ELoad(k, _) => AskedFor(origin, asked, t, k.txID)
    case ELock(k) => AskedFor(origin, asked, t, k.txID)
    case ESecond(k) => AskedFor(origin, asked, t, k.txID)
    case ELoadLocked(k, _) => AskedFor(origin, asked, t, k.txID)
    case EIssue(k, _) => AskedFor(origin, asked, t, k.txID)
    case EAttach(k, _) => AskedFor(origin, asked, t, k.txID)
    case Done(Settled(id, _)) => AskedFor(origin, asked, t, id)
    case _ => true
  }

  predicate ServesAt(w: World, t: nat) {
    t in w.threads && Serves(w.origin, w.asked, t, w.threads[t])
  }

  predicate SameRequests(w: World, r: World) {
    r.origin == w.origin && r.asked == w.asked
  }

  /** Thread t of w moves to pc and no request is recorded. */
  lemma MovesTo(w: World, r: World, t: nat, pc: Pc)
    requires r.origin == w.origin && r.asked == w.asked && r.threads == w.threads[t := pc]
    requires Serves(w.origin, w.asked, t, pc)
    ensures SameRequests(w, r) && ServesAt(r, t)
  {
  }

  ghost predicate AllServe(w: World) {
    forall t <- w.threads :: Serves(w.origin, w.asked, t, w.threads[t])
  }

  // ----- A handler's own step -----

  /** A digest that matches a recorded transaction comes from an equal request. */
  lemma ExistingServes(cfg: Config, origin: Origins, asked: Asks, t: nat, existing: Transaction, req: SettleRequest,
                       path: Option<Path>)
    requires DigestBinds(cfg) && TxOk(cfg, origin, existing) && t in asked && asked[t] == req
    ensures Serves(origin, asked, t, OnExisting(cfg, existing, req, existing.id, path))
  {
    if existing.requestDigest == Digest(cfg, req, existing.id) {
      assert cfg.rawHash(Raw(req)) == cfg.rawHash(Raw(origin[existing.id]));
      assert SameRequest(req, origin[existing.id]);
    }
  }

  lemma LookupServes(cfg: Config, s: LedgerState, origin: Origins, asked: Asks, t: nat, req: SettleRequest, id: string,
                     replayed: bool)
    requires DigestBinds(cfg) && LedgerOk(cfg, s, origin) && t in asked && asked[t] == req
    ensures Serves(origin, asked, t, AfterLookup(cfg, req, id, Lookup(s, id), replayed))
  {
    if Lookup(s, id).Some? {
      FoundTx(cfg, s, origin, id);
      ExistingServes(cfg, origin, asked, t, Lookup(s, id).value, req, None);
    }
  }

  lemma SubmitServes(cfg: Config, w: World, t: nat, req: SettleRequest, id: string, path: Path)
    requires DigestBinds(cfg) && LedgerOk(cfg, w.ledger, w.origin) && PcOk(cfg, w.origin, SSubmit(req, id, path))
    requires t in w.asked && w.asked[t] == req
    ensures ServesAt(SubmitStep(cfg, w, t, req, id, path), t)
  {
    if id in w.ledger.seen {
      if Lookup(w.ledger, id).Some? {
        FoundTx(cfg, w.ledger, w.origin, id);
        ExistingServes(cfg, w.origin, w.asked, t, Lookup(w.ledger, id).value, req, Some(path));
      } else {
        RejectedRetryConflicts(cfg, w.ledger, id, req, Some(path));
      }
    }
  }

  lemma SettleServes(cfg: Config, w: World, t: nat, pc: Pc, ch: Choice)
    requires DigestBinds(cfg) && LedgerOk(cfg, w.ledger, w.origin) && InSettle(pc) && PcOk(cfg, w.origin, pc)
    requires Serves(w.origin, w.asked, t, pc)
    ensures ServesAt(SettleStep(cfg, w, t, pc, ch), t)
  {
    match pc
    case SLookup(req, id) => LookupServes(cfg, w.ledger, w.origin, w.asked, t, req, id, ch.replayed);
    case SSubmit(req, id, path) => SubmitServes(cfg, w, t, req, id, path);
    case SRound(req, id, path) => RoundServes(w, t, req, id, path, ch.majority);
  }

  lemma RoundServes(w: World, t: nat, req: SettleRequest, id: string, path: Path, majority: bool)
    requires Wf(w.ledger) && AskedFor(w.origin, w.asked, t, id)
    ensures ServesAt(RoundStep(w, t, req, id, path, majority), t)
  {
    var r := RoundStep(w, t, req, id, path, majority);
    MovesTo(w, r, t, if RoundCommits(w.ledger, id, majority) then EFirst(Ensure(id, req.policyID, Raw(req), Some(path)))
                     else Done(ConsensusRejected));
  }

  /** The checks of ensureSettlementReceipt stay with the ID they were called for. */
  lemma EnsurePcsServe(cfg: Config, origin: Origins, asked: Asks, t: nat, s: LedgerState, k: Ensure)
    requires Wf(s) && AskedFor(origin, asked, t, k.txID)
    ensures Serves(origin, asked, t, FirstPc(s, k)) && Serves(origin, asked, t, SecondPc(cfg, s, k))
  {
  }

  lemma SecondServes(cfg: Config, w: World, t: nat, k: Ensure)
    requires Wf(w.ledger) && AskedFor(w.origin, w.asked, t, k.txID)
    ensures var r := SecondStep(cfg, w, t, k);
            SameRequests(w, r) && ServesAt(r, t)
  {
    EnsurePcsServe(cfg, w.origin, w.asked, t, w.ledger, k);
  }

  lemma IssueServes(cfg: Config, w: World, t: nat, k: Ensure, path: Path, ch: Choice)
    requires ChoiceOk(ch) && AskedFor(w.origin, w.asked, t, k.txID)
    ensures var r := IssueStep(cfg, w, t, k, path, ch);
            SameRequests(w, r) && ServesAt(r, t)
  {
    var out := IssueOutcome(cfg.crypto, w.gen, w.store, RequestOf(ch, k.txID, k.policyID, path));
    MovesTo(w, IssueStep(cfg, w, t, k, path, ch), t,
            if out.Issued? then EAttach(k, out.receipt) else Done(ReceiptFailure(MINT_FAILED)));
  }

  lemma AttachServes(w: World, t: nat, k: Ensure, x: Receipt)
    requires Wf(w.ledger) && AskedFor(w.origin, w.asked, t, k.txID)
    ensures var r := AttachStep(w, t, k, x);
            SameRequests(w, r) && ServesAt(r, t)
  {
    var done := if AttachCheck(w.ledger, k.txID, x.id).Attached? then Settled(k.txID, x)
                else ReceiptFailure(MINT_FAILED);
    MovesTo(w, AttachStep(w, t, k, x), t, Done(done));
  }

  lemma LoadServes(w: World, t: nat, k: Ensure, rid: string, lookupFails: bool)
    requires AskedFor(w.origin, w.asked, t, k.txID)
    ensures Serves(w.origin, w.asked, t, Done(Loaded(w, k, rid, lookupFails)))
  {
  }

  lemma EnsureServes(cfg: Config, w: World, t: nat, pc: Pc, ch: Choice)
    requires Wf(w.ledger) && InEnsure(pc) && ChoiceOk(ch) && t in w.threads && w.threads[t] == pc
    requires Serves(w.origin, w.asked, t, pc)
    ensures var r := EnsureStep(cfg, w, t, pc, ch);
            SameRequests(w, r) && ServesAt(r, t)
  {
    match pc
    case EFirst(k) => EnsurePcsServe(cfg, w.origin, w.asked, t, w.ledger, k);
    case ELoad(k, rid) => LoadServes(w, t, k, rid, ch.lookupFails);
    case ELock(_) =>
    case ESecond(k) => SecondServes(cfg, w, t, k);
    case ELoadLocked(k, rid) => LoadServes(w, t, k, rid, ch.lookupFails);
    case EIssue(k, path) => IssueServes(cfg, w, t, k, path, ch);
    case EAttach(k, x) => AttachServes(w, t, k, x);
  }

  lemma CheckServes(cfg: Config, w: World, t: nat, ch: Choice)
    requires Wf(w.ledger) && t in w.threads && ChoiceOk(ch) && !InSettle(w.threads[t]) && !InEnsure(w.threads[t])
    requires Serves(w.origin, w.asked, t, w.threads[t])
    ensures var r := ThreadStep(cfg, w, t, ch);
            SameRequests(w, r) && ServesAt(r, t)
  {
    match w.threads[t]
    case CLookup(q, id) =>
      CheckLookupServes(cfg, w, t, q, id, ch.replayed);
      var pc := CheckLookupPc(cfg, w.ledger, q, id, ch.replayed);
      MovesTo(w, Goto(w, t, pc), t, pc);
    case CIssue(id, policyID, path) => CheckIssueServes(cfg, w, t, id, policyID, path, ch);
    case Done(_) =>
  }

  lemma CheckLookupServes(cfg: Config, w: World, t: nat, q: CheckRequest, id: string, replayed: bool)
    requires Wf(w.ledger)
    ensures Serves(w.origin, w.asked, t, CheckLookupPc(cfg, w.ledger, q, id, replayed))
  {
  }

  lemma CheckIssueServes(cfg: Config, w: World, t: nat, id: string, policyID: string, path: Path, ch: Choice)
    requires ChoiceOk(ch)
    ensures var r := CheckIssueStep(cfg, w, t, id, policyID, path, ch);
            SameRequests(w, r) && ServesAt(r, t)
  {
    var out := IssueOutcome(cfg.crypto, w.gen, w.store, RequestOf(ch, id, policyID, path));
    MovesTo(w, CheckIssueStep(cfg, w, t, id, policyID, path, ch), t,
            Done(if out.Issued? then Checked(out.receipt) else Failed("INTERNAL_ERROR")));
  }

  lemma OwnStepServes(cfg: Config, w: World, t: nat, ch: Choice)
    requires DigestBinds(cfg) && FailClosed.Inv(cfg, w) && AllServe(w) && t in w.threads && ChoiceOk(ch)
    ensures ServesAt(ThreadStep(cfg, w, t, ch), t)
  {
    var pc := w.threads[t];
    assert PcOk(cfg, w.origin, pc) && Serves(w.origin, w.asked, t, pc);
    if InSettle(pc) {
      SettleServes(cfg, w, t, pc, ch);
    } else if InEnsure(pc) {
      EnsureServes(cfg, w, t, pc, ch);
    } else {
      CheckServes(cfg, w, t, ch);
    }
  }

  // ----- What a step leaves to the others -----

  /** Recorded requests stay; a step only adds the request of a fresh ID. */
  ghost predicate Remembers(w: World, r: World) {
    && (forall id <- w.origin :: id in r.origin && r.origin[id] == w.origin[id])
    && (forall t <- w.threads :: t in w.asked ==> t in r.asked && r.asked[t] == w.asked[t])
  }

  lemma SubmitRemembers(cfg: Config, w: World, t: nat, req: SettleRequest, id: string, path: Path)
    requires LedgerOk(cfg, w.ledger, w.origin)
    ensures Remembers(w, SubmitStep(cfg, w, t, req, id, path))
  {
  }

  lemma StepRemembers(cfg: Config, w: World, t: nat, ch: Choice)
    requires LedgerOk(cfg, w.ledger, w.origin) && AllServe(w) && t in w.threads && ChoiceOk(ch)
    ensures Remembers(w, ThreadStep(cfg, w, t, ch))
  {
    var pc := w.threads[t];
    assert Serves(w.origin, w.asked, t, pc);
    if InSettle(pc) {
      SettleRemembers(cfg, w, t, pc, ch);
    } else if InEnsure(pc) {
      EnsureServes(cfg, w, t, pc, ch);
    } else {
      CheckServes(cfg, w, t, ch);
    }
  }

  lemma SettleRemembers(cfg: Config, w: World, t: nat, pc: Pc, ch: Choice)
    requires LedgerOk(cfg, w.ledger, w.origin) && InSettle(pc)
    ensures Remembers(w, SettleStep(cfg, w, t, pc, ch))
  {
    if pc.SSubmit? { SubmitRemembers(cfg, w, t, pc.req, pc.id, pc.vetted); }
  }

  lemma OtherServes(w: World, r: World, t: nat)
    requires Remembers(w, r) && t in w.threads && Serves(w.origin, w.asked, t, w.threads[t])
    ensures Serves(r.origin, r.asked, t, w.threads[t])
  {
  }

  lemma NextServes(cfg: Config, w: World, l: Label)
    requires DigestBinds(cfg) && FailClosed.Inv(cfg, w) && AllServe(w)
    ensures AllServe(Next(cfg, w, l))
  {
    if !Enabled(w, l) { return; }
    match l
    case Advance(t, ch) => AdvanceServes(cfg, w, t, ch);
    case BeginSettlement(t, req, uuid) => BeginServes(w, t, req, uuid);
    case BeginCheck(_, _, _) =>
    case RotateKey(_) =>
    case Tick(_) =>
  }

  lemma AdvanceServes(cfg: Config, w: World, t: nat, ch: Choice)
    requires DigestBinds(cfg) && FailClosed.Inv(cfg, w) && AllServe(w) && t in w.threads && ChoiceOk(ch)
    ensures AllServe(ThreadStep(cfg, w, t, ch))
  {
    var r := ThreadStep(cfg, w, t, ch);
    OwnStepServes(cfg, w, t, ch);
    StepRemembers(cfg, w, t, ch);
    Retry.StepMovesOne(cfg, w, t, ch);
    forall u <- r.threads
      ensures Serves(r.origin, r.asked, u, r.threads[u])
    {
      if u != t { OtherServes(w, r, u); }
    }
  }

  lemma BeginServes(w: World, t: nat, req: SettleRequest, uuid: string)
    requires AllServe(w) && t !in w.threads
    ensures AllServe(Goto(w.(asked := w.asked[t := req]), t, BeginSettle(req, uuid)))
  {
  }

  lemma {:induction false} ReachServes(cfg: Config, boot: Boot, labels: seq<Label>)
    requires DigestBinds(cfg) && StoreVetted(cfg, boot.store)
    ensures AllServe(Reach(cfg, boot, labels))
  {
    if labels != [] {
      var n := |labels| - 1;
      ReachServes(cfg, boot, labels[..n]);
      ReachOk(cfg, boot, labels[..n]);
      NextServes(cfg, Reach(cfg, boot, labels[..n]), labels[n]);
    }
  }

  // ----- What is proved of every run -----

  /** Some label of the run called handler t with this request. */
  ghost predicate Called(labels: seq<Label>, t: nat, req: SettleRequest) {
    exists l <- labels :: l.BeginSettlement? && l.tid == t && l.settle == req
  }

  lemma NextAsks(cfg: Config, w: World, l: Label, t: nat)
    requires Wf(w.ledger) && t in Next(cfg, w, l).asked
    ensures (t in w.asked && Next(cfg, w, l).asked[t] == w.asked[t])
         || (l.BeginSettlement? && l.tid == t && l.settle == Next(cfg, w, l).asked[t])
  {
    if l.Advance? && Enabled(w, l) { StepKeepsAsked(cfg, w, l.tid, l.choice); }
  }

  lemma StepKeepsAsked(cfg: Config, w: World, t: nat, ch: Choice)
    requires Wf(w.ledger) && t in w.threads && ChoiceOk(ch)
    ensures ThreadStep(cfg, w, t, ch).asked == w.asked
  {
    var pc := w.threads[t];
    if InSettle(pc) { SettleKeepsAsked(cfg, w, t, pc, ch); }
    else if InEnsure(pc) { EnsureKeepsAsked(cfg, w, t, pc, ch); }
    else if pc.CIssue? { CheckKeepsAsked(cfg, w, t, pc.id, pc.policyID, pc.vetted, ch); }
  }

  lemma SettleKeepsAsked(cfg: Config, w: World, t: nat, pc: Pc, ch: Choice)
    requires Wf(w.ledger) && InSettle(pc)
    ensures SettleStep(cfg, w, t, pc, ch).asked == w.asked
  {
    if pc.SSubmit? { SubmitKeepsAsked(cfg, w, t, pc.req, pc.id, pc.vetted); }
  }

  lemma SubmitKeepsAsked(cfg: Config, w: World, t: nat, req: SettleRequest, id: string, path: Path)
    requires Wf(w.ledger)
    ensures SubmitStep(cfg, w, t, req, id, path).asked == w.asked
  {
  }

  lemma EnsureKeepsAsked(cfg: Config, w: World, t: nat, pc: Pc, ch: Choice)
    requires Wf(w.ledger) && InEnsure(pc) && ChoiceOk(ch)
    ensures EnsureStep(cfg, w, t, pc, ch).asked == w.asked
  {
    if pc.EIssue? { IssueKeepsAsked(cfg, w, t, pc.k, pc.minting, ch); }
    else if pc.ESecond? { SecondKeepsAsked(cfg, w, t, pc.k); }
  }

  lemma SecondKeepsAsked(cfg: Config, w: World, t: nat, k: Ensure)
    requires Wf(w.ledger)
    ensures SecondStep(cfg, w, t, k).asked == w.asked
  {
  }

  lemma CheckKeepsAsked(cfg: Config, w: World, t: nat, id: string, policyID: string, path: Path, ch: Choice)
    requires ChoiceOk(ch)
    ensures CheckIssueStep(cfg, w, t, id, policyID, path, ch).asked == w.asked
  {
  }

  lemma IssueKeepsAsked(cfg: Config, w: World, t: nat, k: Ensure, path: Path, ch: Choice)
    requires ChoiceOk(ch)
    ensures IssueStep(cfg, w, t, k, path, ch).asked == w.asked
  {
  }

  lemma {:induction false} AskedWasCalled(cfg: Config, boot: Boot, labels: seq<Label>, t: nat)
    requires t in Reach(cfg, boot, labels).asked
    ensures Called(labels, t, Reach(cfg, boot, labels).asked[t])
  {
    if labels != [] {
      var n := |labels| - 1;
      NextAsks(cfg, Reach(cfg, boot, labels[..n]), labels[n], t);
      if t in Reach(cfg, boot, labels[..n]).asked { AskedWasCalled(cfg, boot, labels[..n], t); }
    }
  }

  /**
   Every reported settlement answers the request it belongs to: the handler was called with the parties,
   amount, currency, policy and path bytes of the request that submitted the reported ID.
   */
  lemma SettledAnswersItsRequest(cfg: Config, boot: Boot, labels: seq<Label>, t: nat, id: string, rc: Receipt)
    requires DigestBinds(cfg) && StoreVetted(cfg, boot.store)
    requires var w := Reach(cfg, boot, labels); t in w.threads && w.threads[t] == Done(Settled(id, rc))
    ensures var w := Reach(cfg, boot, labels);
            && AskedFor(w.origin, w.asked, t, id)
            && Called(labels, t, w.asked[t])
  {
    var w := Reach(cfg, boot, labels);
    ReachServes(cfg, boot, labels);
    assert Serves(w.origin, w.asked, t, w.threads[t]);
    AskedWasCalled(cfg, boot, labels, t);
  }
}
