/**
 Every run of one durable store: receipts issued with any mix of failures, key rotations, and restarts
 that seed a new generator from the store.
 */
module ChainRuns {
  import opened Base
  import opened ReceiptTypes
  import opened Threshold
  import opened Validation
  import opened GeneratorModel

  datatype Op =
    | Issue(request: Request)
    | Rotate(newKey: Bytes)
    | Restart(key: Bytes)

  datatype Chain = Chain(gen: Gen, store: seq<Receipt>)

  function Start(c: Crypto, sk: Bytes): Chain {
    Chain(Gen(sk, c.publicKey(sk), 0, None), [])
  }

  /** Only groups built by NewThresholdOracle sign, and only keys trusted by t are used. */
  ghost predicate OpOk(c: Crypto, t: Trust, op: Op) {
    match op
    case Issue(q) =>
      q.signer.SigningGroup? ==>
        && WellFormed(c, q.signer.group)
        && forall m <- q.signer.group.members :: Trusted(t.thresholdKeys, m.publicKey)
    case Rotate(sk) => Trusted(t.oracleKeys, c.publicKey(sk))
    case Restart(sk) => Trusted(t.oracleKeys, c.publicKey(sk))
  }

  ghost function Step(c: Crypto, t: Trust, s: Chain, op: Op): Chain
    requires OpOk(c, t, op)
  {
    match op
    case Issue(q) =>
      var out := IssueOutcome(c, s.gen, s.store, q);
      if out.Issued? then Chain(Advance(c, s.gen, out.receipt), s.store + [out.receipt]) else s
    case Rotate(sk) => s.(gen := s.gen.(privateKey := sk, publicKey := c.publicKey(sk)))
    case Restart(sk) => s.(gen := Seeded(c, sk, s.store))
  }

  ghost predicate RunOk(c: Crypto, t: Trust, sk: Bytes, ops: seq<Op>) {
    Lawful(c) && Trusted(t.oracleKeys, c.publicKey(sk)) && forall op <- ops :: OpOk(c, t, op)
  }

  ghost function Run(c: Crypto, t: Trust, sk: Bytes, ops: seq<Op>): Chain
    requires RunOk(c, t, sk, ops)
  {
    if ops == [] then Start(c, sk)
    else Step(c, t, Run(c, t, sk, ops[..|ops| - 1]), ops[|ops| - 1])
  }

  // ----- The invariant -----

  predicate NumberedAt(store: seq<Receipt>, i: nat)
    requires i < |store|
  {
    store[i].seqNo == (i + 1) % TWO_64
  }

  /** A receipt that carries a previous hash carries its predecessor's. */
  predicate LinkedAt(c: Crypto, store: seq<Receipt>, i: nat)
    requires i < |store|
  {
    store[i].previousHash.Some? ==> i > 0 && store[i].previousHash.value == c.hash(store[i - 1].signature)
  }

  ghost predicate GenOk(c: Crypto, t: Trust, g: Gen, store: seq<Receipt>) {
    && g.publicKey == c.publicKey(g.privateKey) && Trusted(t.oracleKeys, g.publicKey)
    && g.seqNo == |store| % TWO_64
    && (g.lastHash.Some? ==> store != [] && g.lastHash.value == c.hash(store[|store| - 1].signature))
  }

  ghost predicate StoreOk(c: Crypto, t: Trust, store: seq<Receipt>) {
    && (forall i | 0 <= i < |store| :: NumberedAt(store, i))
    && (forall i | 0 <= i < |store| :: LinkedAt(c, store, i))
    && (forall i | 0 <= i < |store| :: ReceiptOk(c, t, store[i]))
  }

  /** uint64 counting agrees with counting modulo 2^64. */
  lemma NextSeqCounts(n: nat)
    ensures NextSeq(n % TWO_64) == (n + 1) % TWO_64
  {
    var q, r := n / TWO_64, n % TWO_64;
    assert n == q * TWO_64 + r;
    if r == TWO_64 - 1 {
      assert n + 1 == (q + 1) * TWO_64;
      Wraps(q + 1, 0);
    } else {
      assert n + 1 == q * TWO_64 + (r + 1);
      Wraps(q, r + 1);
    }
  }

  lemma Wraps(q: nat, r: nat)
    requires r < TWO_64
    ensures (q * TWO_64 + r) % TWO_64 == r
  {
    var d := (q * TWO_64 + r) / TWO_64;
    assert q * TWO_64 + r == d * TWO_64 + (q * TWO_64 + r) % TWO_64;
  }

  /** A built receipt is valid on its own and carries the generator's number and hash. */
  lemma BuiltIsGood(c: Crypto, t: Trust, g: Gen, q: Request)
    requires Lawful(c) && OpOk(c, t, Issue(q)) && Build(c, g, q).Some?
    requires g.publicKey == c.publicKey(g.privateKey) && Trusted(t.oracleKeys, g.publicKey)
    ensures var r := Build(c, g, q).value;
            ReceiptOk(c, t, r) && r.seqNo == NextSeq(g.seqNo) && r.previousHash == g.lastHash
                && r.oraclePublicKey == g.publicKey
  {
    var r := Build(c, g, q).value;
    var u := Unsigned(g, q, Proofs(q.buildProof, q.path.hops).value);
    assert SigningPayload(r) == SigningPayload(u);
    if q.signer.SigningGroup? { SignedAttestationsOk(c, t.thresholdKeys, q.signer.group, r); }
  }

  lemma IssueKeeps(c: Crypto, t: Trust, g: Gen, store: seq<Receipt>, q: Request)
    requires Lawful(c) && OpOk(c, t, Issue(q)) && GenOk(c, t, g, store) && StoreOk(c, t, store)
    ensures var out := IssueOutcome(c, g, store, q);
            out.Issued? ==>
              && GenOk(c, t, Advance(c, g, out.receipt), store + [out.receipt])
              && StoreOk(c, t, store + [out.receipt]) && out.receipt.previousHash == g.lastHash
  {
    var out := IssueOutcome(c, g, store, q);
    if out.Issued? {
      BuiltIsGood(c, t, g, q);
      NextSeqCounts(|store|);
      AppendKeeps(c, t, store, out.receipt);
    }
  }

  lemma AppendKeeps(c: Crypto, t: Trust, store: seq<Receipt>, r: Receipt)
    requires StoreOk(c, t, store) && ReceiptOk(c, t, r) && r.seqNo == (|store| + 1) % TWO_64
    requires r.previousHash.Some? ==> store != [] && r.previousHash.value == c.hash(store[|store| - 1].signature)
    ensures StoreOk(c, t, store + [r])
  {
    var after := store + [r];
    forall i | 0 <= i < |after|
      ensures NumberedAt(after, i) && LinkedAt(c, after, i) && ReceiptOk(c, t, after[i])
    {
      if i < |store| { assert NumberedAt(store, i) && LinkedAt(c, store, i) && ReceiptOk(c, t, store[i]); }
    }
  }

  lemma SeededOk(c: Crypto, t: Trust, store: seq<Receipt>, sk: Bytes)
    requires StoreOk(c, t, store) && Trusted(t.oracleKeys, c.publicKey(sk))
    ensures GenOk(c, t, Seeded(c, sk, store), store)
  {
    if store != [] { assert NumberedAt(store, |store| - 1); }
  }

  lemma {:induction false} RunKeeps(c: Crypto, t: Trust, sk: Bytes, ops: seq<Op>)
    requires RunOk(c, t, sk, ops)
    ensures var s := Run(c, t, sk, ops); GenOk(c, t, s.gen, s.store) && StoreOk(c, t, s.store)
  {
    if ops != [] {
      var n := |ops| - 1;
      RunKeeps(c, t, sk, ops[..n]);
      var s := Run(c, t, sk, ops[..n]);
      assert OpOk(c, t, ops[n]);
      match ops[n]
      case Issue(q) => IssueKeeps(c, t, s.gen, s.store, q);
      case Rotate(_) =>
      case Restart(key) => SeededOk(c, t, s.store, key);
    }
  }

  /** A store only grows along a run. */
  lemma {:induction false} StoreGrows(c: Crypto, t: Trust, sk: Bytes, ops: seq<Op>, n: nat)
    requires RunOk(c, t, sk, ops) && n <= |ops|
    ensures Run(c, t, sk, ops[..n]).store <= Run(c, t, sk, ops).store
  {
    if n == |ops| {
      assert ops[..n] == ops;
    } else {
      var m := |ops| - 1;
      assert ops[..m][..n] == ops[..n];
      StoreGrows(c, t, sk, ops[..m], n);
      assert OpOk(c, t, ops[m]);
    }
  }

  // ----- Segments -----

  /** Every receipt of a stretch but its first carries a previous hash. */
  predicate Segment(store: seq<Receipt>, lo: nat, hi: nat) {
    lo < hi <= |store| && forall i | lo < i < hi :: store[i].previousHash.Some?
  }

  lemma SegmentValidates(c: Crypto, t: Trust, store: seq<Receipt>, lo: nat, hi: nat)
    requires StoreOk(c, t, store) && Segment(store, lo, hi)
    ensures ChainValid(c, t, store[lo..hi])
  {
    var rs := store[lo..hi];
    forall i | 0 <= i < |rs| ensures ReceiptOk(c, t, rs[i]) { assert rs[i] == store[lo + i]; }
    forall i | 0 < i < |rs|
      ensures Links(c, rs[i - 1], rs[i])
    {
      assert rs[i] == store[lo + i] && rs[i - 1] == store[lo + i - 1];
      assert LinkedAt(c, store, lo + i) && NumberedAt(store, lo + i) && NumberedAt(store, lo + i - 1);
      NextSeqCounts(lo + i);
    }
  }

  /** A store is one valid chain exactly when no receipt after the first lacks its previous hash. */
  lemma WholeStoreValid(c: Crypto, t: Trust, store: seq<Receipt>)
    requires StoreOk(c, t, store) && store != []
    ensures ChainValid(c, t, store) <==> Segment(store, 0, |store|)
  {
    if Segment(store, 0, |store|) {
      SegmentValidates(c, t, store, 0, |store|);
      assert store[0..|store|] == store;
    } else {
      var i :| 0 < i < |store| && store[i].previousHash.None?;
      assert !Links(c, store[i - 1], store[i]);
    }
  }

  // ----- Where a new segment starts -----

  /** The position of the last restart in ops, or -1. */
  function LastRestart(ops: seq<Op>): (m: int)
    ensures -1 <= m < |ops| && (m >= 0 ==> ops[m].Restart?)
    ensures forall j | m < j < |ops| :: !ops[j].Restart?
  {
    if ops == [] then -1
    else if ops[|ops| - 1].Restart? then |ops| - 1
    else LastRestart(ops[..|ops| - 1])
  }

  /** The last restart met a non-empty store whose last receipt has another key, and nothing was appended since. */
  ghost predicate CutOff(c: Crypto, t: Trust, sk: Bytes, ops: seq<Op>)
    requires RunOk(c, t, sk, ops)
  {
    var m := LastRestart(ops);
    m >= 0
    && var met := Run(c, t, sk, ops[..m]).store;
       && met != [] && |met| == |Run(c, t, sk, ops).store|
       && met[|met| - 1].oraclePublicKey != c.publicKey(ops[m].key)
  }

  /** The generator has no last hash exactly when there is no receipt yet or it is cut off from the last one. */
  lemma {:induction false} NoHashMeansCutOff(c: Crypto, t: Trust, sk: Bytes, ops: seq<Op>)
    requires RunOk(c, t, sk, ops)
    ensures var s := Run(c, t, sk, ops); s.gen.lastHash.None? <==> s.store == [] || CutOff(c, t, sk, ops)
  {
    if ops != [] {
      var n := |ops| - 1;
      var before, s := Run(c, t, sk, ops[..n]), Run(c, t, sk, ops);
      assert OpOk(c, t, ops[n]);
      if ops[n].Restart? {
        assert LastRestart(ops) == n;
      } else {
        NoHashMeansCutOff(c, t, sk, ops[..n]);
        var m := LastRestart(ops);
        assert m == LastRestart(ops[..n]);
        if m >= 0 {
          assert ops[..n][..m] == ops[..m];
          StoreGrows(c, t, sk, ops[..n], m);
        }
      }
    }
  }

  /** Operation n of the run is an issue whose receipt is appended at position i. */
  ghost predicate AppendsAt(c: Crypto, t: Trust, sk: Bytes, ops: seq<Op>, n: nat, i: nat)
    requires RunOk(c, t, sk, ops)
  {
    n < |ops| && |Run(c, t, sk, ops[..n]).store| == i && |Run(c, t, sk, ops[..n + 1]).store| == i + 1
  }

  /**
   A new segment starts exactly at a foreign restart: the receipt that operation n appends at i > 0 has
   no previous hash if and only if the last restart before n met the store with receipt i - 1 as its
   last one and holds another key than that receipt's.
   */
  lemma SegmentStartsAtForeignRestart(c: Crypto, t: Trust, sk: Bytes, ops: seq<Op>, n: nat, i: nat)
    requires RunOk(c, t, sk, ops) && AppendsAt(c, t, sk, ops, n, i) && i > 0
    ensures var store := Run(c, t, sk, ops).store;
            && i < |store|
            && (store[i].previousHash.None? <==>
                  var m := LastRestart(ops[..n]);
                  && m >= 0 && |Run(c, t, sk, ops[..m]).store| == i
                  && store[i - 1].oraclePublicKey != c.publicKey(ops[m].key))
  {
    AppendedHash(c, t, sk, ops, n, i);
    NoHashMeansCutOff(c, t, sk, ops[..n]);
    CutOffInStore(c, t, sk, ops, n, i);
  }

  /** An appended receipt carries the last hash its generator had. */
  lemma AppendedHash(c: Crypto, t: Trust, sk: Bytes, ops: seq<Op>, n: nat, i: nat)
    requires RunOk(c, t, sk, ops) && AppendsAt(c, t, sk, ops, n, i)
    ensures var store := Run(c, t, sk, ops).store;
            i < |store| && store[i].previousHash == Run(c, t, sk, ops[..n]).gen.lastHash
  {
    assert ops[..n + 1][..n] == ops[..n];
    assert OpOk(c, t, ops[n]);
    StoreGrows(c, t, sk, ops, n + 1);
  }

  /** Being cut off after n operations, read off the final store. */
  lemma CutOffInStore(c: Crypto, t: Trust, sk: Bytes, ops: seq<Op>, n: nat, i: nat)
    requires RunOk(c, t, sk, ops) && n <= |ops| && |Run(c, t, sk, ops[..n]).store| == i && i > 0
    ensures var store := Run(c, t, sk, ops).store;
            && i <= |store|
            && (CutOff(c, t, sk, ops[..n]) <==>
                  var m := LastRestart(ops[..n]);
                  && m >= 0 && |Run(c, t, sk, ops[..m]).store| == i
                  && store[i - 1].oraclePublicKey != c.publicKey(ops[m].key))
  {
    StoreGrows(c, t, sk, ops, n);
    var m := LastRestart(ops[..n]);
    if m >= 0 {
      assert ops[..n][..m] == ops[..m] && ops[..n][m] == ops[m];
      StoreGrows(c, t, sk, ops, m);
      var met, store := Run(c, t, sk, ops[..m]).store, Run(c, t, sk, ops).store;
      assert |met| == i ==> met[i - 1] == store[i - 1];
    }
  }

  /** Every stored receipt was appended by one operation of the run. */
  lemma {:induction false} EveryReceiptIsAppended(c: Crypto, t: Trust, sk: Bytes, ops: seq<Op>, i: nat) returns (n: nat)
    requires RunOk(c, t, sk, ops) && i < |Run(c, t, sk, ops).store|
    ensures AppendsAt(c, t, sk, ops, n, i)
  {
    n := |ops| - 1;
    assert OpOk(c, t, ops[n]);
    assert ops[..n + 1] == ops;
    if i < |Run(c, t, sk, ops[..n]).store| {
      var k := n;
      n := EveryReceiptIsAppended(c, t, sk, ops[..k], i);
      assert ops[..k][..n] == ops[..n] && ops[..k][..n + 1] == ops[..n + 1];
    }
  }

  // ----- What is proved of every run -----

  /** Some receipt was appended by a generator that a foreign restart had cut off. */
  ghost predicate HasForeignStart(c: Crypto, t: Trust, sk: Bytes, ops: seq<Op>)
    requires RunOk(c, t, sk, ops)
  {
    exists n: nat, i: nat :: AppendsAt(c, t, sk, ops, n, i) && CutOff(c, t, sk, ops[..n])
  }

  /**
   With restarts: the numbering has no gaps; every stretch whose receipts after the first carry a previous
   hash validates; and the whole store validates exactly when no receipt was appended after a restart
   whose key differs from the last stored receipt's.
   */
  lemma RestartsSplitTheStore(c: Crypto, t: Trust, sk: Bytes, ops: seq<Op>)
    requires RunOk(c, t, sk, ops)
    ensures var store := Run(c, t, sk, ops).store;
            && (forall i | 0 <= i < |store| :: NumberedAt(store, i))
            && (forall lo: nat, hi: nat | Segment(store, lo, hi) :: ChainValid(c, t, store[lo..hi]))
            && (store != [] ==> (ChainValid(c, t, store) <==> !HasForeignStart(c, t, sk, ops)))
  {
    var store := Run(c, t, sk, ops).store;
    RunKeeps(c, t, sk, ops);
    forall lo: nat, hi: nat | Segment(store, lo, hi) ensures ChainValid(c, t, store[lo..hi]) {
      SegmentValidates(c, t, store, lo, hi);
    }
    if store != [] {
      WholeStoreValid(c, t, store);
      if !ChainValid(c, t, store) {
        var i :| 0 < i < |store| && store[i].previousHash.None?;
        var n := EveryReceiptIsAppended(c, t, sk, ops, i);
        AppendedByCutOff(c, t, sk, ops, n, i);
      } else if HasForeignStart(c, t, sk, ops) {
        var n: nat, i: nat :| AppendsAt(c, t, sk, ops, n, i) && CutOff(c, t, sk, ops[..n]);
        AppendedByCutOff(c, t, sk, ops, n, i);
      }
    }
  }

  lemma AppendedByCutOff(c: Crypto, t: Trust, sk: Bytes, ops: seq<Op>, n: nat, i: nat)
    requires RunOk(c, t, sk, ops) && AppendsAt(c, t, sk, ops, n, i)
    ensures i < |Run(c, t, sk, ops).store|
    ensures i > 0 && Run(c, t, sk, ops).store[i].previousHash.None? <==> CutOff(c, t, sk, ops[..n])
  {
    AppendedHash(c, t, sk, ops, n, i);
    NoHashMeansCutOff(c, t, sk, ops[..n]);
  }

  /**
   One generator, any rotations and any failures, no restart: the whole store is one valid chain and,
   below 2^64 receipts, it is numbered 1, 2, 3 and so on without gaps.
   */
  lemma ChainAlwaysVerifies(c: Crypto, t: Trust, sk: Bytes, ops: seq<Op>)
    requires RunOk(c, t, sk, ops) && forall op <- ops :: !op.Restart?
    ensures var store := Run(c, t, sk, ops).store;
            && (store != [] ==> ChainValid(c, t, store))
            && (forall i | 0 <= i < |store| && i + 1 < TWO_64 :: store[i].seqNo == i + 1)
  {
    var store := Run(c, t, sk, ops).store;
    RestartsSplitTheStore(c, t, sk, ops);
    forall n: nat | n <= |ops| ensures LastRestart(ops[..n]) == -1 {
      assert forall j | 0 <= j < n :: ops[..n][j] in ops;
    }
    forall i | 0 <= i < |store| && i + 1 < TWO_64 ensures store[i].seqNo == i + 1 { CountsFromOne(store, i); }
  }

  lemma CountsFromOne(store: seq<Receipt>, i: nat)
    requires i < |store| && i + 1 < TWO_64 && NumberedAt(store, i)
    ensures store[i].seqNo == i + 1
  {
    Wraps(0, i + 1);
  }

  /**
   A restart always restores the sequence number.  It restores the last hash exactly when it holds the
   last receipt's key and the generator before it was not itself cut off from the chain, or neither.
   */
  lemma RestartRestores(c: Crypto, t: Trust, sk: Bytes, ops: seq<Op>, key: Bytes)
    requires RunOk(c, t, sk, ops) && Run(c, t, sk, ops).store != []
    ensures var s := Run(c, t, sk, ops);
            var g := Seeded(c, key, s.store);
            var sameKey := s.store[|s.store| - 1].oraclePublicKey == c.publicKey(key);
            && g.seqNo == s.gen.seqNo
            && (g.lastHash == s.gen.lastHash <==> sameKey == !CutOff(c, t, sk, ops))
            && (sameKey && !CutOff(c, t, sk, ops) ==> g == s.gen.(privateKey := key, publicKey := c.publicKey(key)))
  {
    RunKeeps(c, t, sk, ops);
    NoHashMeansCutOff(c, t, sk, ops);
    SeededRestores(c, t, Run(c, t, sk, ops), CutOff(c, t, sk, ops), key);
  }

  lemma SeededRestores(c: Crypto, t: Trust, s: Chain, cutOff: bool, key: Bytes)
    requires GenOk(c, t, s.gen, s.store) && StoreOk(c, t, s.store) && s.store != []
    requires s.gen.lastHash.None? <==> cutOff
    ensures var g := Seeded(c, key, s.store);
            var sameKey := s.store[|s.store| - 1].oraclePublicKey == c.publicKey(key);
            && g.seqNo == s.gen.seqNo
            && (g.lastHash == s.gen.lastHash <==> sameKey == !cutOff)
            && (sameKey && !cutOff ==> g == s.gen.(privateKey := key, publicKey := c.publicKey(key)))
  {
    assert NumberedAt(s.store, |s.store| - 1);
  }

  // ----- A store that no longer validates -----

  /** A request that nothing hinders. */
  function PlainRequest(id: string): Request {
    Request(id, "", "", Path([], [], "", "", ""), 0, _ => None, NoSigner, false)
  }

  /**
   Rotating to a new key and restarting before the next receipt: both receipts are stored, each is valid,
   and the store is not one valid chain.
   */
  lemma RotateThenRestartBreaksTheChain(c: Crypto, t: Trust, a: Bytes, b: Bytes, id1: string, id2: string)
    requires Lawful(c) && Trusted(t.oracleKeys, c.publicKey(a)) && Trusted(t.oracleKeys, c.publicKey(b))
    requires c.publicKey(a) != c.publicKey(b) && id1 != id2
    ensures var ops := [Issue(PlainRequest(id1)), Rotate(b), Restart(b), Issue(PlainRequest(id2))];
            && RunOk(c, t, a, ops)
            && var store := Run(c, t, a, ops).store;
               |store| == 2 && store[1].previousHash.None? && !ChainValid(c, t, store)
  {
    var op1, op4 := Issue(PlainRequest(id1)), Issue(PlainRequest(id2));
    RestartedWithForeignKey(c, t, a, b, id1);
    SecondIsCutOff(c, t, a, [op1, Rotate(b), Restart(b)], id2);
    assert [op1, Rotate(b), Restart(b)] + [op4] == [op1, Rotate(b), Restart(b), op4];
  }

  lemma FirstIsStored(c: Crypto, t: Trust, a: Bytes, id: string)
    requires Lawful(c) && Trusted(t.oracleKeys, c.publicKey(a))
    ensures RunOk(c, t, a, [Issue(PlainRequest(id))])
    ensures var s := Run(c, t, a, [Issue(PlainRequest(id))]);
            |s.store| == 1 && s.store[0].id == id && s.store[0].oraclePublicKey == c.publicKey(a)
  {
    RunSnoc(c, t, a, [], Issue(PlainRequest(id)));
    PlainIsIssued(c, Start(c, a).gen, [], id);
    assert [] + [Issue(PlainRequest(id))] == [Issue(PlainRequest(id))];
  }

  lemma RestartedWithForeignKey(c: Crypto, t: Trust, a: Bytes, b: Bytes, id: string)
    requires Lawful(c) && Trusted(t.oracleKeys, c.publicKey(a)) && Trusted(t.oracleKeys, c.publicKey(b))
    requires c.publicKey(a) != c.publicKey(b)
    ensures var ops := [Issue(PlainRequest(id)), Rotate(b), Restart(b)];
            && RunOk(c, t, a, ops)
            && var s := Run(c, t, a, ops);
               |s.store| == 1 && s.gen.lastHash.None? && s.gen.seqNo == s.store[0].seqNo && s.store[0].id == id
  {
    var op := Issue(PlainRequest(id));
    FirstIsStored(c, t, a, id);
    RunSnoc(c, t, a, [op], Rotate(b));
    assert [op] + [Rotate(b)] == [op, Rotate(b)];
    RunSnoc(c, t, a, [op, Rotate(b)], Restart(b));
    assert [op, Rotate(b)] + [Restart(b)] == [op, Rotate(b), Restart(b)];
  }

  lemma SecondIsCutOff(c: Crypto, t: Trust, sk: Bytes, ops: seq<Op>, id: string)
    requires RunOk(c, t, sk, ops)
    requires var s := Run(c, t, sk, ops);
             |s.store| == 1 && s.gen.lastHash.None? && s.gen.seqNo == s.store[0].seqNo && s.store[0].id != id
    ensures RunOk(c, t, sk, ops + [Issue(PlainRequest(id))])
    ensures var store := Run(c, t, sk, ops + [Issue(PlainRequest(id))]).store;
            |store| == 2 && store[1].previousHash.None? && !ChainValid(c, t, store)
  {
    var s := Run(c, t, sk, ops);
    RunSnoc(c, t, sk, ops, Issue(PlainRequest(id)));
    PlainIsIssued(c, s.gen, s.store, id);
    var store := Run(c, t, sk, ops + [Issue(PlainRequest(id))]).store;
    assert !Links(c, store[0], store[1]);
  }

  lemma PlainIsIssued(c: Crypto, g: Gen, store: seq<Receipt>, id: string)
    requires forall r <- store :: r.id != id && r.seqNo != NextSeq(g.seqNo)
    ensures var out := IssueOutcome(c, g, store, PlainRequest(id));
            && out.Issued? && out.receipt.id == id && out.receipt.seqNo == NextSeq(g.seqNo)
            && out.receipt.previousHash == g.lastHash && out.receipt.oraclePublicKey == g.publicKey
  {
  }

  lemma RunSnoc(c: Crypto, t: Trust, sk: Bytes, ops: seq<Op>, op: Op)
    requires RunOk(c, t, sk, ops) && OpOk(c, t, op)
    ensures RunOk(c, t, sk, ops + [op]) && Run(c, t, sk, ops + [op]) == Step(c, t, Run(c, t, sk, ops), op)
  {
    assert (ops + [op])[..|ops|] == ops;
  }
}
