/**
 The receipt generator: it signs numbered, hash-linked receipts and advances only after the durable store
 has accepted one; its key may be rotated, and after a restart it is seeded from the store.
 */
module GeneratorModel {
  import opened Base
  import opened ReceiptTypes
  import opened Threshold
  import opened Validation

  // ----- Proof status -----

  /** The common status of all proofs, MIXED if they differ, UNVERIFIED if there are none. */
  function Aggregate(proofs: seq<ISDProof>): string {
    if proofs == [] then UNVERIFIED
    else if forall i | 0 <= i < |proofs| ::
              NormalizeProofStatus(proofs[i].verificationStatus) == NormalizeProofStatus(proofs[0].verificationStatus)
      then NormalizeProofStatus(proofs[0].verificationStatus)
    else MIXED
  }

  method AggregateProofStatus(proofs: seq<ISDProof>) returns (status: string)
    ensures status == Aggregate(proofs)
    ensures status != ""
  {
    if |proofs| == 0 { return UNVERIFIED; }
    status := "";
    for i := 0 to |proofs|
      invariant i == 0 ==> status == ""
      invariant i > 0 ==>
                  status != "" && forall j | 0 <= j < i :: NormalizeProofStatus(proofs[j].verificationStatus) == status
    {
      var current := NormalizeProofStatus(proofs[i].verificationStatus);
      if status == "" {
        status := current;
      } else if current != status {
        return MIXED;
      }
    }
  }

  /** One proof per hop, or nothing if the provider fails on some hop. */
  function Proofs(buildProof: Hop -> Option<ISDProof>, hops: seq<Hop>): Option<seq<ISDProof>> {
    if hops == [] then Some([])
    else
      var n := |hops| - 1;
      match Proofs(buildProof, hops[..n])
      case None => None
      case Some(ps) =>
        match buildProof(hops[n])
        case None => None
        case Some(p) => Some(ps + [p])
  }

  // ----- Building a receipt -----

  datatype Signer = NoSigner | FailingSigner | SigningGroup(group: Group)

  /** One call of IssueAndAppend: its arguments and what the clock, the UUID source, the proof provider,
      the threshold signer and the store's medium contribute. */
  datatype Request = Request(
    id: string, transactionID: string, policyID: string, path: Path, now: int,
    buildProof: Hop -> Option<ISDProof>, signer: Signer, storeFails: bool)

  datatype Gen = Gen(privateKey: Bytes, publicKey: Bytes, seqNo: uint64, lastHash: Option<Bytes>)

  /** The receipt before it is signed. */
  function Unsigned(g: Gen, q: Request, proofs: seq<ISDProof>): Receipt {
    Receipt(q.id, q.transactionID, q.policyID, q.path, NormalizeEvidenceClass(q.path.evidenceClass), Aggregate(proofs),
            proofs,
            NextSeq(g.seqNo), q.now, [], g.publicKey, g.lastHash, 0, 0, [])
  }

  function Build(c: Crypto, g: Gen, q: Request): Option<Receipt>
    requires q.signer.SigningGroup? ==> q.signer.group.k <= |q.signer.group.members|
  {
    match Proofs(q.buildProof, q.path.hops)
    case None => None
    case Some(proofs) =>
      var r := Unsigned(g, q, proofs);
      var payload := c.encode(SigningPayload(r));
      var signed := r.(signature := c.sign(g.privateKey, payload));
      match q.signer
      case NoSigner => Some(signed)
      case FailingSigner => None
      case SigningGroup(group) =>
        Some(signed.(thresholdK := group.k, thresholdN := |group.members|,
                     thresholdSignatures := Signatures(c, group, payload)))
  }

  /** The store accepts a receipt whose ID and sequence number are both new, unless its medium fails. */
  predicate Accepts(store: seq<Receipt>, r: Receipt) {
    forall i | 0 <= i < |store| :: store[i].id != r.id && store[i].seqNo != r.seqNo
  }

  datatype IssueResult = Issued(receipt: Receipt) | BuildFailed | AppendFailed(receiptID: string)

  function IssueOutcome(c: Crypto, g: Gen, store: seq<Receipt>, q: Request): IssueResult
    requires q.signer.SigningGroup? ==> q.signer.group.k <= |q.signer.group.members|
  {
    match Build(c, g, q)
    case None => BuildFailed
    case Some(r) => if q.storeFails || !Accepts(store, r) then AppendFailed(r.id) else Issued(r)
  }

  function Advance(c: Crypto, g: Gen, r: Receipt): Gen {
    g.(seqNo := r.seqNo, lastHash := Some(c.hash(r.signature)))
  }

  /** Seeding from the last stored receipt: its number always, its hash only if the key is the same. */
  function Reseeded(c: Crypto, g: Gen, store: seq<Receipt>): Gen {
    if store == [] then g
    else
      var last := store[|store| - 1];
      g.(seqNo := last.seqNo,
         lastHash := if last.oraclePublicKey == g.publicKey then Some(c.hash(last.signature)) else g.lastHash)
  }

  /** A fresh generator for a key, seeded from the last stored receipt. */
  function Seeded(c: Crypto, sk: Bytes, store: seq<Receipt>): Gen {
    Reseeded(c, Gen(sk, c.publicKey(sk), 0, None), store)
  }

  class Generator {
    var privateKey: Bytes
    var publicKey: Bytes
    var seqNo: uint64
    var lastHash: Option<Bytes>

    function State(): Gen
      reads this
    {
      Gen(privateKey, publicKey, seqNo, lastHash)
    }

    constructor (c: Crypto, sk: Bytes)
      ensures State() == Gen(sk, c.publicKey(sk), 0, None)
    {
      privateKey, publicKey, seqNo, lastHash := sk, c.publicKey(sk), 0, None;
    }

    /** Rotation either installs both halves of a new key or, when a file operation fails, changes nothing. */
    method RotateKey(c: Crypto, sk: Bytes, fileFails: bool) returns (ok: bool)
      modifies this
      ensures ok == !fileFails
      ensures State() == if fileFails then old(State())
                         else old(State()).(privateKey := sk, publicKey := c.publicKey(sk))
    {
      if fileFails { return false; }
      privateKey, publicKey := sk, c.publicKey(sk);
      ok := true;
    }

    method BuildReceipt(c: Crypto, q: Request) returns (r: Option<Receipt>, newHash: Bytes)
      requires q.signer.SigningGroup? ==> q.signer.group.k <= |q.signer.group.members|
      ensures r == Build(c, State(), q)
      ensures r.Some? ==> newHash == c.hash(r.value.signature)
    {
      newHash := [];
      var proofs := [];
      var hops := q.path.hops;
      for i := 0 to |hops|
        invariant Proofs(q.buildProof, hops[..i]) == Some(proofs)
      {
        assert hops[..i + 1][..i] == hops[..i];
        var p := q.buildProof(hops[i]);
        if p.None? {
          ProofsFail(q.buildProof, hops, i + 1);
          return None, [];
        }
        proofs := proofs + [p.value];
      }
      assert hops[..|hops|] == hops;
      var status := AggregateProofStatus(proofs);
      var receipt := Receipt(q.id, q.transactionID, q.policyID, q.path, NormalizeEvidenceClass(q.path.evidenceClass),
                             status, proofs,
                             NextSeq(seqNo), q.now, [], publicKey, lastHash, 0, 0, []);
      var payload := c.encode(SigningPayload(receipt));
      receipt := receipt.(signature := c.sign(privateKey, payload));
      match q.signer {
        case NoSigner =>
        case FailingSigner => return None, [];
        case SigningGroup(group) =>
          var sigs, k, n := SignThreshold(c, group, payload);
          receipt := receipt.(thresholdK := k, thresholdN := n, thresholdSignatures := sigs);
      }
      r, newHash := Some(receipt), c.hash(receipt.signature);
    }

    /** Build, append, and only then advance. `store` is the list of stored receipts, updated in the result. */
    method IssueAndAppend(c: Crypto, store: seq<Receipt>, q: Request)
      returns (store': seq<Receipt>, result: IssueResult)
      requires q.signer.SigningGroup? ==> q.signer.group.k <= |q.signer.group.members|
      modifies this
      ensures result == IssueOutcome(c, old(State()), store, q)
      ensures store' == if result.Issued? then store + [result.receipt] else store
      ensures State() == if result.Issued? then Advance(c, old(State()), result.receipt) else old(State())
    {
      store' := store;
      var r, h := BuildReceipt(c, q);
      if r.None? { return store, BuildFailed; }
      if q.storeFails || !Accepts(store, r.value) { return store, AppendFailed(r.value.id); }
      store' := store + [r.value];
      seqNo, lastHash := r.value.seqNo, Some(h);
      result := Issued(r.value);
    }

    /** On a generator with another key the code keeps whatever hash it had; at start-up there is none. */
    method SeedChain(c: Crypto, store: seq<Receipt>)
      modifies this
      ensures State() == Reseeded(c, old(State()), store)
    {
      if |store| == 0 { return; }
      var last := store[|store| - 1];
      seqNo := last.seqNo;
      if last.oraclePublicKey != publicKey { return; }
      lastHash := Some(c.hash(last.signature));
    }
  }

  lemma {:induction false} ProofsFail(f: Hop -> Option<ISDProof>, hops: seq<Hop>, n: nat)
    requires n <= |hops| && Proofs(f, hops[..n]).None?
    ensures Proofs(f, hops).None?
    decreases |hops| - n
  {
    if n == |hops| {
      assert hops[..n] == hops;
    } else {
      assert hops[..n + 1][..n] == hops[..n];
      ProofsFail(f, hops, n + 1);
    }
  }
}
