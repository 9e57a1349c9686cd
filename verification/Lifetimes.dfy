/**
 A server over several process lifetimes: the ledger and the handlers are lost with the process, the
 receipts stay, and the next process seeds its generator from them.
 */
module Lifetimes {
  import opened Base
  import opened ReceiptTypes
  import opened LedgerModel
  import opened GeneratorModel
  import opened Validation
  import opened Settlement
  import Once = ExactlyOnce
  import Closed = FailClosed
  import Chain = ChainRuns
  import Server = ServerChain

  /** One process: its validators, its key and what happens while it lives. */
  datatype Life = Life(vs: map<string, Validator>, key: Bytes, labels: seq<Label>)

  /** How the process of a life starts on a store, and the state it ends in. */
  function BootOf(life: Life, store: seq<Receipt>): Boot { Boot(life.vs, life.key, store) }

  function EndOf(cfg: Config, life: Life, store: seq<Receipt>): World { Reach(cfg, BootOf(life, store), life.labels) }

  /** The receipts stored after all lives, from an empty store. */
  function StoreAfter(cfg: Config, lives: seq<Life>): seq<Receipt> {
    if lives == [] then []
    else EndOf(cfg, lives[|lives| - 1], StoreAfter(cfg, lives[..|lives| - 1])).store
  }

  /** The IDs of the settlement receipts appended for a transaction ID, life by life. */
  function MintedAfter(cfg: Config, lives: seq<Life>, id: string): seq<string> {
    if lives == [] then []
    else
      var n := |lives| - 1;
      MintedAfter(cfg, lives[..n], id) + Minted(EndOf(cfg, lives[n], StoreAfter(cfg, lives[..n])), id)
  }

  // ----- At most one settlement receipt per lifetime -----

  lemma OncePerLife(cfg: Config, life: Life, store: seq<Receipt>, id: string)
    ensures |Minted(EndOf(cfg, life, store), id)| <= 1
  {
    Once.SettlesExactlyOnce(cfg, BootOf(life, store), life.labels);
  }

  /** Over any number of lives an ID gets at most one settlement receipt in each. */
  lemma {:induction false} AtMostOnePerLifetime(cfg: Config, lives: seq<Life>, id: string)
    ensures |MintedAfter(cfg, lives, id)| <= |lives|
  {
    if lives != [] {
      var n := |lives| - 1;
      AtMostOnePerLifetime(cfg, lives[..n], id);
      OncePerLife(cfg, lives[n], StoreAfter(cfg, lives[..n]), id);
    }
  }

  // ----- What the store keeps over all lives -----

  /** Every receipt stored by any life names a policy that allows its path. */
  lemma {:induction false} StoreStaysCompliant(cfg: Config, lives: seq<Life>)
    requires Closed.DigestBinds(cfg)
    ensures Closed.StoreVetted(cfg, StoreAfter(cfg, lives))
  {
    if lives != [] {
      var n := |lives| - 1;
      StoreStaysCompliant(cfg, lives[..n]);
      Closed.ReachOk(cfg, BootOf(lives[n], StoreAfter(cfg, lives[..n])), lives[n].labels);
    }
  }

  ghost predicate LifeOk(cfg: Config, t: Trust, life: Life) {
    Trusted(t.oracleKeys, cfg.crypto.publicKey(life.key)) && forall l <- life.labels :: Server.LabelOk(cfg, t, l)
  }

  /** Numbering, signatures and links stay in order over all lives. */
  lemma {:induction false} StoreStaysWellFormed(cfg: Config, t: Trust, lives: seq<Life>)
    requires Lawful(cfg.crypto) && forall life <- lives :: LifeOk(cfg, t, life)
    ensures Chain.StoreOk(cfg.crypto, t, StoreAfter(cfg, lives))
  {
    if lives != [] {
      var n := |lives| - 1;
      StoreStaysWellFormed(cfg, t, lives[..n]);
      assert LifeOk(cfg, t, lives[n]);
      Server.ServedChainContinues(cfg, t, BootOf(lives[n], StoreAfter(cfg, lives[..n])), lives[n].labels);
    }
  }

  // ----- One undisturbed settlement -----

  /** A settlement that nothing hinders: the request, its ID and path, the choices of the environment, the receipt. */
  datatype Case = Case(req: SettleRequest, id: string, path: Path, ch: Choice, rc: Receipt)

  function TxOf(cfg: Config, k: Case): Transaction { NewTx(cfg, k.req, k.id, k.path) }

  function EnsureOf(k: Case): Ensure { Ensure(k.id, k.req.policyID, Raw(k.req), Some(k.path)) }

  /** Complete request, compliant path, enough money, a majority, and a generator and store that deliver rc. */
  predicate Unhindered(cfg: Config, boot: Boot, k: Case) {
    && k.req.from != "" && k.req.to != "" && k.req.amount > 0 && k.req.currency != "" && k.req.policyID != ""
    && k.req.rawPath.Some? && k.id != "" && k.req.transactionID == k.id
    && ChoiceOk(k.ch) && k.ch.majority && !k.ch.replayed && Digest(cfg, k.req, k.id) != ""
    && cfg.extract(Raw(k.req)) == Some(k.path) && Vetted(cfg, k.req.policyID, k.path)
    && SubmitCheck(New(boot.vs), TxOf(cfg, k)).None?
    && IssueOutcome(cfg.crypto, Seeded(cfg.crypto, boot.key, boot.store), boot.store,
                    RequestOf(k.ch, k.id, k.req.policyID, k.path)) == Issued(k.rc)
  }

  function Submitted(cfg: Config, boot: Boot, k: Case): (s: LedgerState)
    ensures Wf(s)
  {
    Submit(New(boot.vs), TxOf(cfg, k))
  }

  function ConfirmedLedger(cfg: Config, boot: Boot, k: Case): (s: LedgerState)
    ensures Wf(s)
  {
    Commit(Submitted(cfg, boot, k), k.id)
  }

  /** The only handler of the run, after n of its steps. */
  function PcAfter(k: Case, n: nat): Pc {
    if n == 0 then SLookup(k.req, k.id)
    else if n == 1 then SSubmit(k.req, k.id, k.path)
    else if n == 2 then SRound(k.req, k.id, k.path)
    else if n == 3 then EFirst(EnsureOf(k))
    else if n == 4 then ELock(EnsureOf(k))
    else if n == 5 then ESecond(EnsureOf(k))
    else if n == 6 then EIssue(EnsureOf(k), k.path)
    else if n == 7 then EAttach(EnsureOf(k), k.rc)
    else Done(Settled(k.id, k.rc))
  }

  /** The run of that handler, after n of its steps. */
  ghost predicate Stage(cfg: Config, boot: Boot, k: Case, w: World, n: nat) {
    && w.threads == map[0 := PcAfter(k, n)]
    && w.mutex == (if n < 5 || n > 7 then None else Some(0))
    && (n < 7 ==> w.gen == Seeded(cfg.crypto, boot.key, boot.store) && w.store == boot.store && w.minted == map[])
    && (n >= 7 ==> w.store == boot.store + [k.rc] && w.minted == map[k.id := [k.rc.id]])
    && (n < 2 ==> w.ledger == New(boot.vs))
    && (n == 2 ==> w.ledger == Submitted(cfg, boot, k))
    && (3 <= n <= 7 ==> w.ledger == ConfirmedLedger(cfg, boot, k))
  }

  /** The ledger holds the confirmed transaction of the case, and it still lacks its receipt. */
  ghost predicate Unreceipted(s: LedgerState, k: Case) {
    && Wf(s) && k.id in s.confirmed
    && var tx := s.allTxs[s.confirmed[k.id]];
       tx.receiptID == "" && tx.requestDigest != "" && tx.pathFingerprint == k.path.fingerprint
  }

  lemma ConfirmedEntry(cfg: Config, boot: Boot, k: Case)
    requires SubmitCheck(New(boot.vs), TxOf(cfg, k)).None? && Digest(cfg, k.req, k.id) != ""
    ensures CommitCheck(Submitted(cfg, boot, k), k.id) == Committed
    ensures Unreceipted(ConfirmedLedger(cfg, boot, k), k)
  {
  }

  lemma LookupStage(cfg: Config, boot: Boot, k: Case, w: World)
    requires Unhindered(cfg, boot, k) && Stage(cfg, boot, k, w, 0)
    ensures Stage(cfg, boot, k, SettleStep(cfg, w, 0, SLookup(k.req, k.id), k.ch), 1)
  {
    assert SettleStep(cfg, w, 0, SLookup(k.req, k.id), k.ch) == Goto(w, 0, SSubmit(k.req, k.id, k.path));
  }

  lemma SubmitStage(cfg: Config, boot: Boot, k: Case, w: World)
    requires SubmitCheck(New(boot.vs), TxOf(cfg, k)).None? && Stage(cfg, boot, k, w, 1)
    ensures Stage(cfg, boot, k, SettleStep(cfg, w, 0, SSubmit(k.req, k.id, k.path), k.ch), 2)
  {
    assert SettleStep(cfg, w, 0, SSubmit(k.req, k.id, k.path), k.ch)
        == Goto(w.(ledger := Submitted(cfg, boot, k), origin := w.origin[k.id := k.req]), 0,
                SRound(k.req, k.id, k.path));
  }

  lemma RoundStage(cfg: Config, boot: Boot, k: Case, w: World)
    requires CommitCheck(Submitted(cfg, boot, k), k.id) == Committed && k.ch.majority && Stage(cfg, boot, k, w, 2)
    ensures Wf(w.ledger) && Stage(cfg, boot, k, SettleStep(cfg, w, 0, SRound(k.req, k.id, k.path), k.ch), 3)
  {
    assert SettleStep(cfg, w, 0, SRound(k.req, k.id, k.path), k.ch)
        == Goto(w.(ledger := ConfirmedLedger(cfg, boot, k)), 0, EFirst(EnsureOf(k)));
  }

  lemma FirstStage(s: LedgerState, k: Case)
    requires Unreceipted(s, k)
    ensures FirstPc(s, EnsureOf(k)) == ELock(EnsureOf(k))
  {
  }

  lemma SecondStage(cfg: Config, w: World, k: Case)
    requires Unreceipted(w.ledger, k)
    ensures SecondStep(cfg, w, 0, EnsureOf(k)) == Goto(w, 0, EIssue(EnsureOf(k), k.path))
  {
  }

  lemma IssueStage(cfg: Config, w: World, k: Case)
    requires ChoiceOk(k.ch) && w.minted == map[]
    requires IssueOutcome(cfg.crypto, w.gen, w.store, RequestOf(k.ch, k.id, k.req.policyID, k.path)) == Issued(k.rc)
    ensures IssueStep(cfg, w, 0, EnsureOf(k), k.path, k.ch)
         == Goto(w.(gen := GeneratorModel.Advance(cfg.crypto, w.gen, k.rc), store := w.store + [k.rc],
                    minted := map[k.id := [k.rc.id]]), 0, EAttach(EnsureOf(k), k.rc))
  {
    assert Minted(w, k.id) == [] && [] + [k.rc.id] == [k.rc.id];
    assert w.minted[k.id := [k.rc.id]] == map[k.id := [k.rc.id]];
  }

  lemma AttachStage(w: World, k: Case)
    requires Unreceipted(w.ledger, k)
    ensures AttachStep(w, 0, EnsureOf(k), k.rc)
         == Leave(w.(ledger := Attach(w.ledger, k.id, k.rc.id)), 0, Settled(k.id, k.rc))
  {
  }

  lemma SettleStage(cfg: Config, boot: Boot, k: Case, w: World, n: nat)
    requires Unhindered(cfg, boot, k) && Wf(w.ledger) && Stage(cfg, boot, k, w, n) && n < 3
    ensures Stage(cfg, boot, k, SettleStep(cfg, w, 0, PcAfter(k, n), k.ch), n + 1)
  {
    if n == 0 { LookupStage(cfg, boot, k, w); }
    else if n == 1 { SubmitStage(cfg, boot, k, w); }
    else {
      ConfirmedEntry(cfg, boot, k);
      RoundStage(cfg, boot, k, w);
    }
  }

  /** What the second half of the run needs to know. */
  ghost predicate Minting(cfg: Config, boot: Boot, k: Case) {
    && ChoiceOk(k.ch) && Unreceipted(ConfirmedLedger(cfg, boot, k), k)
    && IssueOutcome(cfg.crypto, Seeded(cfg.crypto, boot.key, boot.store), boot.store,
                    RequestOf(k.ch, k.id, k.req.policyID, k.path)) == Issued(k.rc)
  }

  /** A step that moves the handler and the lock as the next stage wants it, and changes nothing else. */
  lemma Moved(cfg: Config, boot: Boot, k: Case, w: World, r: World, n: nat)
    requires Stage(cfg, boot, k, w, n) && 3 <= n < 6
    requires r == w.(threads := w.threads[0 := PcAfter(k, n + 1)], mutex := if n < 4 then None else Some(0))
    ensures Stage(cfg, boot, k, r, n + 1)
  {
  }

  lemma MovedIssue(cfg: Config, boot: Boot, k: Case, w: World, r: World)
    requires Stage(cfg, boot, k, w, 6)
    requires r.threads == w.threads[0 := EAttach(EnsureOf(k), k.rc)] && r.mutex == w.mutex && r.ledger == w.ledger
    requires r.store == w.store + [k.rc] && r.minted == map[k.id := [k.rc.id]]
    ensures Stage(cfg, boot, k, r, 7)
  {
  }

  lemma MovedLast(cfg: Config, boot: Boot, k: Case, w: World, r: World)
    requires Stage(cfg, boot, k, w, 7)
    requires r.threads == w.threads[0 := Done(Settled(k.id, k.rc))] && r.mutex == None
    requires r.store == w.store && r.minted == w.minted
    ensures Stage(cfg, boot, k, r, 8)
  {
  }

  lemma FromFirst(cfg: Config, boot: Boot, k: Case, w: World)
    requires ChoiceOk(k.ch) && Unreceipted(w.ledger, k) && Stage(cfg, boot, k, w, 3)
    ensures Stage(cfg, boot, k, EnsureStep(cfg, w, 0, EFirst(EnsureOf(k)), k.ch), 4)
  {
    FirstStage(w.ledger, k);
    var r := EnsureStep(cfg, w, 0, EFirst(EnsureOf(k)), k.ch);
    assert r == Goto(w, 0, ELock(EnsureOf(k)));
    Moved(cfg, boot, k, w, r, 3);
  }

  lemma FromLock(cfg: Config, boot: Boot, k: Case, w: World)
    requires ChoiceOk(k.ch) && Wf(w.ledger) && Stage(cfg, boot, k, w, 4)
    ensures Stage(cfg, boot, k, EnsureStep(cfg, w, 0, ELock(EnsureOf(k)), k.ch), 5)
  {
    var r := EnsureStep(cfg, w, 0, ELock(EnsureOf(k)), k.ch);
    assert r == Goto(w.(mutex := Some(0)), 0, ESecond(EnsureOf(k)));
    Moved(cfg, boot, k, w, r, 4);
  }

  lemma FromSecond(cfg: Config, boot: Boot, k: Case, w: World)
    requires ChoiceOk(k.ch) && Unreceipted(w.ledger, k) && Stage(cfg, boot, k, w, 5)
    ensures Stage(cfg, boot, k, EnsureStep(cfg, w, 0, ESecond(EnsureOf(k)), k.ch), 6)
  {
    SecondStage(cfg, w, k);
    var r := EnsureStep(cfg, w, 0, ESecond(EnsureOf(k)), k.ch);
    assert r == Goto(w, 0, EIssue(EnsureOf(k), k.path));
    Moved(cfg, boot, k, w, r, 5);
  }

  lemma FromIssue(cfg: Config, boot: Boot, k: Case, w: World)
    requires ChoiceOk(k.ch) && Wf(w.ledger) && Stage(cfg, boot, k, w, 6)
    requires IssueOutcome(cfg.crypto, w.gen, w.store, RequestOf(k.ch, k.id, k.req.policyID, k.path)) == Issued(k.rc)
    ensures Stage(cfg, boot, k, EnsureStep(cfg, w, 0, EIssue(EnsureOf(k), k.path), k.ch), 7)
  {
    IssueStage(cfg, w, k);
    var r := EnsureStep(cfg, w, 0, EIssue(EnsureOf(k), k.path), k.ch);
    assert r == IssueStep(cfg, w, 0, EnsureOf(k), k.path, k.ch);
    MovedIssue(cfg, boot, k, w, r);
  }

  lemma FromAttach(cfg: Config, boot: Boot, k: Case, w: World)
    requires ChoiceOk(k.ch) && Unreceipted(w.ledger, k) && Stage(cfg, boot, k, w, 7)
    ensures Stage(cfg, boot, k, EnsureStep(cfg, w, 0, EAttach(EnsureOf(k), k.rc), k.ch), 8)
  {
    AttachStage(w, k);
    var r := EnsureStep(cfg, w, 0, EAttach(EnsureOf(k), k.rc), k.ch);
    assert r == Leave(w.(ledger := Attach(w.ledger, k.id, k.rc.id)), 0, Settled(k.id, k.rc));
    MovedLast(cfg, boot, k, w, r);
  }

  lemma EnsureStage(cfg: Config, boot: Boot, k: Case, w: World, n: nat)
    requires Minting(cfg, boot, k) && Stage(cfg, boot, k, w, n) && 3 <= n < 8
    ensures EnsureStaged(cfg, boot, k, w, n)
  {
    if n == 3 { FromFirst(cfg, boot, k, w); }
    else if n == 4 { FromLock(cfg, boot, k, w); }
    else if n == 5 { FromSecond(cfg, boot, k, w); }
    else if n == 6 { FromIssue(cfg, boot, k, w); }
    else { FromAttach(cfg, boot, k, w); }
  }

  ghost predicate EnsureStaged(cfg: Config, boot: Boot, k: Case, w: World, n: nat) {
    && Wf(w.ledger) && InEnsure(PcAfter(k, n)) && ChoiceOk(k.ch)
    && Stage(cfg, boot, k, EnsureStep(cfg, w, 0, PcAfter(k, n), k.ch), n + 1)
  }

  lemma StageStep(cfg: Config, boot: Boot, k: Case, w: World, n: nat)
    requires Unhindered(cfg, boot, k) && Wf(w.ledger) && Stage(cfg, boot, k, w, n) && n < 8
    ensures Stage(cfg, boot, k, ThreadStep(cfg, w, 0, k.ch), n + 1)
  {
    if n < 3 {
      SettleThread(cfg, w, PcAfter(k, n), k.ch);
      SettleStage(cfg, boot, k, w, n);
    } else {
      UnhinderedMints(cfg, boot, k);
      LaterStep(cfg, boot, k, w, n);
    }
  }

  lemma LaterStep(cfg: Config, boot: Boot, k: Case, w: World, n: nat)
    requires Minting(cfg, boot, k) && Wf(w.ledger) && Stage(cfg, boot, k, w, n) && 3 <= n < 8
    ensures Stage(cfg, boot, k, ThreadStep(cfg, w, 0, k.ch), n + 1)
  {
    EnsureStage(cfg, boot, k, w, n);
    StagedThread(cfg, boot, k, w, n);
  }

  lemma StagedThread(cfg: Config, boot: Boot, k: Case, w: World, n: nat)
    requires w.threads == map[0 := PcAfter(k, n)] && EnsureStaged(cfg, boot, k, w, n)
    ensures Stage(cfg, boot, k, ThreadStep(cfg, w, 0, k.ch), n + 1)
  {
    EnsureThread(cfg, w, PcAfter(k, n), k.ch);
  }

  lemma UnhinderedMints(cfg: Config, boot: Boot, k: Case)
    requires Unhindered(cfg, boot, k)
    ensures Minting(cfg, boot, k)
  {
    ConfirmedEntry(cfg, boot, k);
  }

  lemma SettleThread(cfg: Config, w: World, pc: Pc, ch: Choice)
    requires Wf(w.ledger) && 0 in w.threads && w.threads[0] == pc && InSettle(pc) && ChoiceOk(ch)
    ensures ThreadStep(cfg, w, 0, ch) == SettleStep(cfg, w, 0, pc, ch)
  {
  }

  lemma EnsureThread(cfg: Config, w: World, pc: Pc, ch: Choice)
    requires Wf(w.ledger) && 0 in w.threads && w.threads[0] == pc && InEnsure(pc) && ChoiceOk(ch)
    ensures ThreadStep(cfg, w, 0, ch) == EnsureStep(cfg, w, 0, pc, ch)
  {
  }

  lemma StageNext(cfg: Config, boot: Boot, k: Case, labels: seq<Label>, n: nat)
    requires Unhindered(cfg, boot, k) && Stage(cfg, boot, k, Reach(cfg, boot, labels), n) && n < 8
    ensures Stage(cfg, boot, k, Reach(cfg, boot, labels + [Label.Advance(0, k.ch)]), n + 1)
  {
    StageStep(cfg, boot, k, Reach(cfg, boot, labels), n);
    AdvanceNext(cfg, boot, labels, k.ch);
  }

  lemma AdvanceNext(cfg: Config, boot: Boot, labels: seq<Label>, ch: Choice)
    requires 0 in Reach(cfg, boot, labels).threads && ChoiceOk(ch)
    ensures Reach(cfg, boot, labels + [Label.Advance(0, ch)]) == ThreadStep(cfg, Reach(cfg, boot, labels), 0, ch)
  {
    assert (labels + [Label.Advance(0, ch)])[..|labels|] == labels;
  }

  lemma BeginStage(cfg: Config, boot: Boot, k: Case)
    requires Unhindered(cfg, boot, k)
    ensures Stage(cfg, boot, k, Reach(cfg, boot, [BeginSettlement(0, k.req, k.id)]), 0)
  {
    var l := BeginSettlement(0, k.req, k.id);
    assert [l][..0] == [];
    assert Reach(cfg, boot, [l]) == Next(cfg, Init(cfg, boot), l);
  }

  /** An unhindered request settles: some run of its handler alone ends in any of its stages. */
  lemma {:induction false} SettlesAlone(cfg: Config, boot: Boot, k: Case, n: nat) returns (labels: seq<Label>)
    requires Unhindered(cfg, boot, k) && n <= 8
    ensures Stage(cfg, boot, k, Reach(cfg, boot, labels), n)
  {
    if n == 0 {
      labels := [BeginSettlement(0, k.req, k.id)];
      BeginStage(cfg, boot, k);
    } else {
      var before := SettlesAlone(cfg, boot, k, n - 1);
      StageNext(cfg, boot, k, before, n - 1);
      labels := before + [Label.Advance(0, k.ch)];
    }
  }

  /** What an unhindered settlement leaves: one more receipt, reported and booked for the ID. */
  ghost predicate SettledOnce(cfg: Config, boot: Boot, k: Case, w: World) {
    && w.threads == map[0 := Done(Settled(k.id, k.rc))] && w.store == boot.store + [k.rc]
    && Minted(w, k.id) == [k.rc.id] && k.rc.transactionID == k.id
  }

  lemma UnhinderedSettles(cfg: Config, boot: Boot, k: Case) returns (labels: seq<Label>)
    requires Unhindered(cfg, boot, k)
    ensures SettledOnce(cfg, boot, k, Reach(cfg, boot, labels))
  {
    labels := SettlesAlone(cfg, boot, k, 8);
    LastStage(cfg, boot, k, Reach(cfg, boot, labels));
  }

  lemma LastStage(cfg: Config, boot: Boot, k: Case, w: World)
    requires Unhindered(cfg, boot, k) && Stage(cfg, boot, k, w, 8)
    ensures SettledOnce(cfg, boot, k, w)
  {
  }

  // ----- A restart forgets -----

  /**
   Settled, restarted and settled again: whenever the second process can issue a receipt too, the same
   request is settled a second time, and the store holds two settlement receipts for its ID.
   */
  lemma RestartSettlesAgain(cfg: Config, vs: map<string, Validator>, key: Bytes, a: Case, b: Case)
    returns (lives: seq<Life>)
    requires b.req == a.req && b.id == a.id && b.path == a.path
    requires Unhindered(cfg, Boot(vs, key, []), a) && Unhindered(cfg, Boot(vs, key, [a.rc]), b)
    ensures |lives| == 2 && SettledTwice(cfg, lives, a, b)
  {
    var x := SettlingLife(cfg, vs, key, [], a);
    var y := SettlingLife(cfg, vs, key, [a.rc], b);
    BothLives(cfg, x, y, a, b);
    lives := [x, y];
  }

  lemma BothLives(cfg: Config, x: Life, y: Life, a: Case, b: Case)
    requires a.id == b.id && SettledOnce(cfg, BootOf(x, []), a, EndOf(cfg, x, []))
    requires SettledOnce(cfg, BootOf(y, [a.rc]), b, EndOf(cfg, y, [a.rc]))
    ensures SettledTwice(cfg, [x, y], a, b)
  {
    OneLife(cfg, x, a);
    TwoLives(cfg, x, y, b);
  }

  /** The store holds two settlement receipts for one ID. */
  ghost predicate SettledTwice(cfg: Config, lives: seq<Life>, a: Case, b: Case) {
    && StoreAfter(cfg, lives) == [a.rc, b.rc] && MintedAfter(cfg, lives, a.id) == [a.rc.id, b.rc.id]
    && a.rc.transactionID == b.rc.transactionID == a.id
  }

  lemma SettlingLife(cfg: Config, vs: map<string, Validator>, key: Bytes, store: seq<Receipt>, k: Case)
    returns (life: Life)
    requires Unhindered(cfg, Boot(vs, key, store), k)
    ensures SettledOnce(cfg, BootOf(life, store), k, EndOf(cfg, life, store))
  {
    var labels := UnhinderedSettles(cfg, Boot(vs, key, store), k);
    life := Life(vs, key, labels);
  }

  lemma OneLife(cfg: Config, x: Life, k: Case)
    requires SettledOnce(cfg, BootOf(x, []), k, EndOf(cfg, x, []))
    ensures StoreAfter(cfg, [x]) == [k.rc] && MintedAfter(cfg, [x], k.id) == [k.rc.id]
  {
    assert [x][..0] == [];
    assert StoreAfter(cfg, []) == [] && MintedAfter(cfg, [], k.id) == [];
  }

  lemma TwoLives(cfg: Config, x: Life, y: Life, k: Case)
    requires SettledOnce(cfg, BootOf(y, StoreAfter(cfg, [x])), k, EndOf(cfg, y, StoreAfter(cfg, [x])))
    ensures StoreAfter(cfg, [x, y]) == StoreAfter(cfg, [x]) + [k.rc]
    ensures MintedAfter(cfg, [x, y], k.id) == MintedAfter(cfg, [x], k.id) + [k.rc.id]
  {
    assert [x, y][..1] == [x];
  }
}
