/**
 The settlement and check handlers of the API as threads over one ledger, one generator and one store.
 Each step of a thread is one critical section of the code, so a run is any interleaving of any number
 of handlers, with any consensus outcome and any failure of the store, the proofs or the signer.
 */
module Settlement {
  import opened Base
  import opened ReceiptTypes
  import opened LedgerModel
  import opened GeneratorModel
  import opened StoreModel
  import opened Compliance

  datatype SettleRequest = SettleRequest(
    transactionID: string, from: string, to: string, amount: int64, currency: string,
    policyID: string, rawPath: Option<Bytes>)

  datatype CheckRequest = CheckRequest(transactionID: string, policyID: string, rawPath: Bytes)

  /** What the canonical request digest covers. */
  datatype DigestPayload = DigestPayload(
    transactionID: string, from: string, to: string, amount: int64, currency: string, policyID: string,
    rawPathHash: string)

  /** Fixed collaborators. `extract` builds a path from raw bytes, or fails; the hashes are rendered in hex. */
  datatype Config = Config(
    crypto: Crypto,
    policies: map<string, Policy>,
    extract: Bytes -> Option<Path>,
    rawHash: Bytes -> string,
    payloadHash: DigestPayload -> string)

  function Digest(cfg: Config, req: SettleRequest, id: string): string {
    cfg.payloadHash(DigestPayload(id, req.from, req.to, req.amount, req.currency, req.policyID, cfg.rawHash(Raw(req))))
  }

  datatype Response =
    | Failed(code: string)
    | NonCompliant
    | ConsensusRejected
    | ReceiptFailure(failure: string)
    | Settled(txID: string, receipt: Receipt)
    | Checked(checkReceipt: Receipt)

  /** The arguments of ensureSettlementReceipt. */
  datatype Ensure = Ensure(txID: string, policyID: string, rawPath: Bytes, path: Option<Path>)

  /** Where a handler stands: what it will do in its next critical section. */
  datatype Pc =
    | SLookup(req: SettleRequest, id: string)
    | SSubmit(req: SettleRequest, id: string, vetted: Path)
    | SRound(req: SettleRequest, id: string, vetted: Path)
    | EFirst(k: Ensure)
    | ELoad(k: Ensure, rid: string)
    | ELock(k: Ensure)
    | ESecond(k: Ensure)
    | ELoadLocked(k: Ensure, rid: string)
    | EIssue(k: Ensure, minting: Path)
    | EAttach(k: Ensure, receipt: Receipt)
    | CLookup(check: CheckRequest, id: string)
    | CIssue(id: string, policyID: string, vetted: Path)
    | Done(response: Response)

  // ----- Decision logic -----

  function Raw(req: SettleRequest): Bytes { OrEmpty(req.rawPath) }

  function TheID(requested: string, uuid: string): string { if requested != "" then requested else uuid }

  function BeginSettle(req: SettleRequest, uuid: string): Pc {
    if req.from == "" || req.to == "" || req.amount <= 0 || req.currency == "" then Done(Failed("INVALID_REQUEST"))
    else if req.policyID == "" then Done(Failed("POLICY_REQUIRED"))
    else if req.rawPath.None? then Done(Failed("PATH_REQUIRED"))
    else SLookup(req, TheID(req.transactionID, uuid))
  }

  predicate Matches(existing: Transaction, req: SettleRequest, digest: string) {
    if existing.requestDigest != "" then existing.requestDigest == digest
    else && existing.from == req.from && existing.to == req.to && existing.amount == req.amount
         && existing.currency == req.currency && existing.policyID == req.policyID
  }

  datatype LegacyCheck = PathOk(path: Option<Path>) | PathError(code: string)

  function CheckLegacyPath(cfg: Config, existing: Transaction, req: SettleRequest, path: Option<Path>): LegacyCheck {
    if existing.requestDigest != "" || existing.pathFingerprint == "" then PathOk(path)
    else
      var p := if path.Some? then path else cfg.extract(Raw(req));
      if p.None? then PathError("INVALID_REQUEST")
      else if p.value.fingerprint != existing.pathFingerprint then PathError("TX_CONFLICT")
      else PathOk(p)
  }

  function ReceiptPolicyID(tx: Transaction, fallback: string): string {
    if tx.policyID != "" then tx.policyID else fallback
  }

  function OnExisting(cfg: Config, existing: Transaction, req: SettleRequest, id: string, path: Option<Path>): Pc {
    if !Matches(existing, req, Digest(cfg, req, id)) then Done(Failed("TX_CONFLICT"))
    else
      match CheckLegacyPath(cfg, existing, req, path)
      case PathError(code) => Done(Failed(code))
      case PathOk(p) =>
        match existing.status
        case Confirmed => EFirst(Ensure(existing.id, ReceiptPolicyID(existing, req.policyID), Raw(req), p))
        case Pending => Done(Failed("TX_PENDING"))
        case Rejected => Done(Failed("DUPLICATE_TX"))
  }

  /** The gate: known policy, extractable path, compliant path that an attached replay detector lets through. */
  function Gate(cfg: Config, policyID: string, raw: Bytes, replayed: bool): (r: (Option<Path>, Response))
    ensures r.0.Some? ==> Vetted(cfg, policyID, r.0.value) && cfg.extract(raw) == r.0
    ensures r.0.Some? <==> !replayed && cfg.extract(raw).Some? && Vetted(cfg, policyID, cfg.extract(raw).value)
    ensures r.0.None? ==> r.1 == Failed("UNKNOWN_POLICY") || r.1 == Failed("INVALID_REQUEST")
                          || r.1 == Failed("INTERNAL_ERROR") || r.1 == NonCompliant
  {
    if policyID !in cfg.policies then (None, Failed("UNKNOWN_POLICY"))
    else
      match cfg.extract(raw)
      case None => (None, Failed("INVALID_REQUEST"))
      case Some(path) =>
        if path.hops == [] then (None, Failed("INTERNAL_ERROR"))
        else if !Compliant(cfg.policies[policyID], path) || replayed then (None, NonCompliant)
        else (Some(path), NonCompliant)
  }

  /** A path that complies with a configured policy. */
  predicate Vetted(cfg: Config, policyID: string, path: Path) {
    policyID in cfg.policies && Compliant(cfg.policies[policyID], path)
  }

  function AfterLookup(cfg: Config, req: SettleRequest, id: string, found: Option<Transaction>, replayed: bool): Pc {
    match found
    case Some(existing) => OnExisting(cfg, existing, req, id, None)
    case None =>
      var (path, refusal) := Gate(cfg, req.policyID, Raw(req), replayed);
      if path.Some? then SSubmit(req, id, path.value) else Done(refusal)
  }

  function NewTx(cfg: Config, req: SettleRequest, id: string, path: Path): Transaction {
    Transaction(id, req.from, req.to, req.amount, req.currency, req.policyID, path.fingerprint, Digest(cfg, req, id),
                "", Pending, 0)
  }

  const MINT_FAILED := "SETTLEMENT_RECEIPT_FAILED"
  const RECEIPT_MISSING := "SETTLEMENT_RECEIPT_MISSING"

  /** The checks that ensureSettlementReceipt makes before it takes the lock, and again after. */
  datatype Readiness = NotReady(code: string) | HasReceipt(rid: string) | Ready(tx: Transaction)

  function Readable(s: LedgerState, id: string): Readiness
    requires Wf(s)
  {
    match Lookup(s, id)
    case None => NotReady(MINT_FAILED)
    case Some(tx) =>
      if tx.status != Confirmed then NotReady(MINT_FAILED)
      else if tx.receiptID != "" then HasReceipt(tx.receiptID)
      else if tx.requestDigest == "" && tx.pathFingerprint == "" then NotReady(RECEIPT_MISSING)
      else Ready(tx)
  }

  function MintingPath(cfg: Config, k: Ensure, tx: Transaction): Option<Path> {
    var p := if k.path.Some? then k.path else cfg.extract(k.rawPath);
    if p.Some? && tx.pathFingerprint != "" && p.value.fingerprint != tx.pathFingerprint then None else p
  }

  // ----- The system -----

  /** The last three are history: the receipt IDs appended by the settlement path for each transaction, the
      request that submitted it, and the request each settle handler was called with. */
  datatype World = World(
    ledger: LedgerState, gen: Gen, store: seq<Receipt>, mutex: Option<nat>, threads: map<nat, Pc>,
    minted: map<string, seq<string>>, origin: map<string, SettleRequest>, asked: map<nat, SettleRequest>)

  /** What the environment contributes to a step. */
  datatype Choice = Choice(
    majority: bool, replayed: bool, lookupFails: bool, id: string, now: int,
    buildProof: Hop -> Option<ISDProof>, signer: Signer, storeFails: bool)

  /** UUIDs are not empty, and a signing group has at least k members. */
  predicate ChoiceOk(ch: Choice) {
    ch.id != "" && (ch.signer.SigningGroup? ==> ch.signer.group.k <= |ch.signer.group.members|)
  }

  datatype Label =
    | BeginSettlement(tid: nat, settle: SettleRequest, uuid: string)
    | BeginCheck(tid: nat, check: CheckRequest, uuid: string)
    | Advance(tid: nat, choice: Choice)
    | RotateKey(sk: Bytes)
    | Tick(proposer: string)

  function Goto(w: World, tid: nat, pc: Pc): World { w.(threads := w.threads[tid := pc]) }

  /** Finish while holding the receipt lock. */
  function Leave(w: World, tid: nat, r: Response): World { Goto(w.(mutex := None), tid, Done(r)) }

  function Minted(w: World, id: string): seq<string> { if id in w.minted then w.minted[id] else [] }

  function RequestOf(ch: Choice, txID: string, policyID: string, path: Path): Request {
    Request(ch.id, txID, policyID, path, ch.now, ch.buildProof, ch.signer, ch.storeFails)
  }

  function SubmitStep(cfg: Config, w: World, tid: nat, req: SettleRequest, id: string, path: Path): (r: World)
    requires Wf(w.ledger)
    ensures Wf(r.ledger)
  {
    var tx := NewTx(cfg, req, id, path);
    match Existing(w.ledger, id)
    case Some(existing) => Goto(w, tid, OnExisting(cfg, existing, req, id, Some(path)))
    case None =>
      if SubmitCheck(w.ledger, tx).Some? then Goto(w, tid, Done(Failed("INVALID_REQUEST")))
      else Goto(w.(ledger := SubmitIfAbsent(w.ledger, tx), origin := w.origin[id := req]), tid, SRound(req, id, path))
  }

  predicate RoundCommits(s: LedgerState, id: string, majority: bool)
    requires Wf(s)
  {
    majority && CommitCheck(s, id) == Committed
  }

  function RoundLedger(s: LedgerState, id: string, majority: bool): (r: LedgerState)
    requires Wf(s)
    ensures Wf(r)
  {
    if RoundCommits(s, id, majority) then Commit(s, id)
    else Cleanup(if majority then Commit(s, id) else s, id)
  }

  /** The rest of the round: whatever the votes, it ends in a commit attempt or in a cleanup. */
  function RoundStep(w: World, tid: nat, req: SettleRequest, id: string, path: Path, majority: bool): (r: World)
    requires Wf(w.ledger)
    ensures Wf(r.ledger)
  {
    Goto(w.(ledger := RoundLedger(w.ledger, id, majority)), tid,
         if RoundCommits(w.ledger, id, majority) then EFirst(Ensure(id, req.policyID, Raw(req), Some(path)))
         else Done(ConsensusRejected))
  }

  function FirstPc(s: LedgerState, k: Ensure): Pc
    requires Wf(s)
  {
    match Readable(s, k.txID)
    case NotReady(code) => Done(ReceiptFailure(code))
    case HasReceipt(rid) => ELoad(k, rid)
    case Ready(_) => ELock(k)
  }

  function Loaded(w: World, k: Ensure, rid: string, lookupFails: bool): Response {
    if lookupFails then ReceiptFailure("RECEIPT_LOOKUP_FAILED")
    else
      match FindByID(w.store, rid)
      case None => ReceiptFailure(RECEIPT_MISSING)
      case Some(r) => Settled(k.txID, r)
  }

  /** Taking the receipt lock; a handler that finds it held waits. */
  function LockStep(w: World, tid: nat, k: Ensure): World {
    if w.mutex.None? then Goto(w.(mutex := Some(tid)), tid, ESecond(k)) else w
  }

  function SecondPc(cfg: Config, s: LedgerState, k: Ensure): Pc
    requires Wf(s)
  {
    match Readable(s, k.txID)
    case NotReady(code) => Done(ReceiptFailure(code))
    case HasReceipt(rid) => ELoadLocked(k, rid)
    case Ready(tx) =>
      match MintingPath(cfg, k, tx)
      case None => Done(ReceiptFailure(MINT_FAILED))
      case Some(path) => EIssue(k, path)
  }

  function SecondStep(cfg: Config, w: World, tid: nat, k: Ensure): World
    requires Wf(w.ledger)
  {
    var pc := SecondPc(cfg, w.ledger, k);
    if pc.Done? then Leave(w, tid, pc.response) else Goto(w, tid, pc)
  }

  function IssueStep(cfg: Config, w: World, tid: nat, k: Ensure, path: Path, ch: Choice): World
    requires ChoiceOk(ch)
  {
    match IssueOutcome(cfg.crypto, w.gen, w.store, RequestOf(ch, k.txID, k.policyID, path))
    case Issued(r) =>
      Goto(w.(gen := GeneratorModel.Advance(cfg.crypto, w.gen, r), store := w.store + [r],
              minted := w.minted[k.txID := Minted(w, k.txID) + [r.id]]), tid, EAttach(k, r))
    case BuildFailed => Leave(w, tid, ReceiptFailure(MINT_FAILED))
    case AppendFailed(_) => Leave(w, tid, ReceiptFailure(MINT_FAILED))
  }

  function AttachStep(w: World, tid: nat, k: Ensure, r: Receipt): (s: World)
    requires Wf(w.ledger)
    ensures Wf(s.ledger)
  {
    if AttachCheck(w.ledger, k.txID, r.id).Attached? then
      Leave(w.(ledger := Attach(w.ledger, k.txID, r.id)), tid, Settled(k.txID, r))
    else Leave(w, tid, ReceiptFailure(MINT_FAILED))
  }

  /** A check refuses an ID that the ledger knows, and otherwise asks the gate. */
  function CheckLookupPc(cfg: Config, s: LedgerState, q: CheckRequest, id: string, replayed: bool): Pc
    requires Wf(s)
  {
    if q.transactionID != "" && Lookup(s, id).Some? then Done(Failed("TX_ID_RESERVED"))
    else
      var (path, refusal) := Gate(cfg, q.policyID, q.rawPath, replayed);
      if path.Some? then CIssue(id, q.policyID, path.value) else Done(refusal)
  }

  function CheckIssueStep(cfg: Config, w: World, tid: nat, id: string, policyID: string, path: Path, ch: Choice): World
    requires ChoiceOk(ch)
  {
    match IssueOutcome(cfg.crypto, w.gen, w.store, RequestOf(ch, id, policyID, path))
    case Issued(r) => Goto(w.(gen := GeneratorModel.Advance(cfg.crypto, w.gen, r), store := w.store + [r]), tid,
                           Done(Checked(r)))
    case BuildFailed => Goto(w, tid, Done(Failed("INTERNAL_ERROR")))
    case AppendFailed(_) => Goto(w, tid, Done(Failed("INTERNAL_ERROR")))
  }

  predicate InSettle(pc: Pc) { pc.SLookup? || pc.SSubmit? || pc.SRound? }
  predicate InEnsure(pc: Pc) {
    pc.EFirst? || pc.ELoad? || pc.ELock? || pc.ESecond? || pc.ELoadLocked? || pc.EIssue? || pc.EAttach?
  }

  function SettleStep(cfg: Config, w: World, tid: nat, pc: Pc, ch: Choice): (r: World)
    requires Wf(w.ledger) && InSettle(pc)
    ensures Wf(r.ledger)
  {
    match pc
    case SLookup(req, id) => Goto(w, tid, AfterLookup(cfg, req, id, Lookup(w.ledger, id), ch.replayed))
    case SSubmit(req, id, path) => SubmitStep(cfg, w, tid, req, id, path)
    case SRound(req, id, path) => RoundStep(w, tid, req, id, path, ch.majority)
  }

  function EnsureStep(cfg: Config, w: World, tid: nat, pc: Pc, ch: Choice): (r: World)
    requires Wf(w.ledger) && InEnsure(pc) && ChoiceOk(ch)
    ensures Wf(r.ledger)
  {
    match pc
    case EFirst(k) => Goto(w, tid, FirstPc(w.ledger, k))
    case ELoad(k, rid) => Goto(w, tid, Done(Loaded(w, k, rid, ch.lookupFails)))
    case ELock(k) => LockStep(w, tid, k)
    case ESecond(k) => SecondStep(cfg, w, tid, k)
    case ELoadLocked(k, rid) => Leave(w, tid, Loaded(w, k, rid, ch.lookupFails))
    case EIssue(k, path) => IssueStep(cfg, w, tid, k, path, ch)
    case EAttach(k, r) => AttachStep(w, tid, k, r)
  }

  function ThreadStep(cfg: Config, w: World, tid: nat, ch: Choice): (r: World)
    requires Wf(w.ledger) && tid in w.threads && ChoiceOk(ch)
    ensures Wf(r.ledger)
  {
    var pc := w.threads[tid];
    if InSettle(pc) then SettleStep(cfg, w, tid, pc, ch)
    else if InEnsure(pc) then EnsureStep(cfg, w, tid, pc, ch)
    else
      match pc
      case CLookup(q, id) => Goto(w, tid, CheckLookupPc(cfg, w.ledger, q, id, ch.replayed))
      case CIssue(id, policyID, path) => CheckIssueStep(cfg, w, tid, id, policyID, path, ch)
      case _ => w
  }

  predicate Enabled(w: World, l: Label) {
    match l
    case BeginSettlement(tid, _, uuid) => tid !in w.threads && uuid != ""
    case BeginCheck(tid, _, uuid) => tid !in w.threads && uuid != ""
    case Advance(tid, ch) => tid in w.threads && ChoiceOk(ch)
    case RotateKey(_) => true
    case Tick(_) => true
  }

  function Next(cfg: Config, w: World, l: Label): (r: World)
    requires Wf(w.ledger)
    ensures Wf(r.ledger)
  {
    if !Enabled(w, l) then w
    else
      match l
      case BeginSettlement(tid, req, uuid) => Goto(w.(asked := w.asked[tid := req]), tid, BeginSettle(req, uuid))
      case BeginCheck(tid, q, uuid) => Goto(w, tid, CLookup(q, TheID(q.transactionID, uuid)))
      case Advance(tid, ch) => ThreadStep(cfg, w, tid, ch)
      case RotateKey(sk) => w.(gen := w.gen.(privateKey := sk, publicKey := cfg.crypto.publicKey(sk)))
      case Tick(v) => w.(ledger := Propose(w.ledger, v))
  }

  /** How a server starts: fresh ledger in memory, and a generator for its key seeded from the stored receipts. */
  datatype Boot = Boot(vs: map<string, Validator>, key: Bytes, store: seq<Receipt>)

  function Init(cfg: Config, boot: Boot): World {
    World(New(boot.vs), Seeded(cfg.crypto, boot.key, boot.store), boot.store, None, map[], map[], map[], map[])
  }

  function Reach(cfg: Config, boot: Boot, labels: seq<Label>): (w: World)
    ensures Wf(w.ledger)
  {
    if labels == [] then Init(cfg, boot)
    else Next(cfg, Reach(cfg, boot, labels[..|labels| - 1]), labels[|labels| - 1])
  }
}
