/** Validation of receipt chains: sequence numbers, hash links, signatures, trust and threshold attestations. */
module Validation {
  import opened Base
  import opened ReceiptTypes
  import opened Threshold
  import Replay = ReplayModel

  datatype Trust = Trust(oracleKeys: set<Bytes>, thresholdKeys: set<Bytes>)

  /** An empty trust set trusts every key. */
  predicate Trusted(keys: set<Bytes>, key: Bytes) {
    keys == {} || key in keys
  }

  predicate AttestationOk(c: Crypto, keys: set<Bytes>, payload: Bytes, s: ThresholdSignature) {
    && s.oracleID != "" && |s.publicKey| == PUBLIC_KEY_SIZE
    && Trusted(keys, s.publicKey) && c.verify(s.publicKey, payload, s.signature)
  }

  ghost predicate DistinctOracles(sigs: seq<ThresholdSignature>) {
    forall i, j | 0 <= i < j < |sigs| :: sigs[i].oracleID != sigs[j].oracleID
  }

  /** No attestations at all, or between k and n of them, all good and from distinct oracles. */
  ghost predicate AttestationsOk(c: Crypto, keys: set<Bytes>, r: Receipt) {
    var sigs := r.thresholdSignatures;
    || (r.thresholdK == 0 && r.thresholdN == 0 && sigs == [])
    || (&& 1 <= r.thresholdK <= |sigs| <= r.thresholdN
        && DistinctOracles(sigs)
        && forall s <- sigs :: AttestationOk(c, keys, c.encode(SigningPayload(r)), s))
  }

  ghost predicate ReceiptOk(c: Crypto, t: Trust, r: Receipt) {
    VerifyReceipt(c, r) && Trusted(t.oracleKeys, r.oraclePublicKey) && AttestationsOk(c, t.thresholdKeys, r)
  }

  /** uint64 successor, as the validator computes it. */
  function NextSeq(n: uint64): uint64 { if n == TWO_64 - 1 then 0 else n + 1 }

  /** r directly continues prev. */
  predicate Links(c: Crypto, prev: Receipt, r: Receipt) {
    r.seqNo == NextSeq(prev.seqNo) && r.previousHash == Some(c.hash(prev.signature))
  }

  /** What an accepted chain means. */
  ghost predicate ChainValid(c: Crypto, t: Trust, rs: seq<Receipt>) {
    && rs != []
    && (forall i | 0 <= i < |rs| :: ReceiptOk(c, t, rs[i]))
    && (forall i | 0 < i < |rs| :: Links(c, rs[i - 1], rs[i]))
  }

  datatype ChainError =
    | EmptyChain | BrokenSequence(index: nat) | MissingPreviousHash(index: nat) | HashMismatch(index: nat)
    | UntrustedRotation(index: nat) | BadSignature(index: nat) | UntrustedKey(index: nat) | BadAttestations(index: nat)

  // ----- Freshness -----

  function HexDigit(d: nat): char
    requires d < 16
  {
    "0123456789abcdef"[d]
  }

  function Hex(b: Bytes): string {
    if b == [] then "" else Hex(b[..|b| - 1]) + [HexDigit(b[|b| - 1] / 16), HexDigit(b[|b| - 1] % 16)]
  }

  /** What the replay detector sees of a receipt: its key is the source. */
  function ReplayMessage(r: Receipt): Replay.Message {
    Replay.Message(Hex(r.oraclePublicKey), r.seqNo, r.timestamp)
  }

  datatype ReceiptError = Inauthentic(cause: ChainError) | TooOld | ReplayRejected(reason: Replay.CheckError)

  class ReceiptValidator {
    const maxAge: int64
    const detector: Replay.ReplayDetector
    var trustedKeys: set<Bytes>
    var thresholdKeys: set<Bytes>

    constructor (maxAge: int64, zeroTime: int)
      ensures trustedKeys == {} && thresholdKeys == {} && this.maxAge == maxAge
      ensures fresh(detector) && detector.State() == Replay.New(maxAge, zeroTime)
    {
      this.maxAge := maxAge;
      trustedKeys, thresholdKeys := {}, {};
      detector := new Replay.ReplayDetector(maxAge, zeroTime);
    }

    /** Authentic, fresh and not a replay; the clock is read for the age, then again by the detector. */
    method ValidateReceipt(c: Crypto, r: Receipt, now: int, checkTime: int, later: int)
      returns (err: Option<ReceiptError>)
      modifies detector
      ensures err.None? <==> && ReceiptOk(c, TrustSets(), r) && Replay.Sub(now, r.timestamp) <= maxAge
                             && Replay.Verdict(old(detector.State()), ReplayMessage(r), checkTime).None?
      ensures detector.State() ==
                if ReceiptOk(c, TrustSets(), r) && Replay.Sub(now, r.timestamp) <= maxAge
                then Replay.Checked(old(detector.State()), ReplayMessage(r), checkTime, later)
                else old(detector.State())
      ensures TrustSets() == old(TrustSets())
    {
      var cause := CheckReceipt(c, r, 0);
      if cause.Some? { return Some(Inauthentic(cause.value)); }
      if Replay.Sub(now, r.timestamp) > maxAge { return Some(TooOld); }
      var e := detector.Check(ReplayMessage(r), checkTime, later);
      err := if e.Some? then Some(ReplayRejected(e.value)) else None;
    }

    function TrustSets(): Trust
      reads this
    {
      Trust(trustedKeys, thresholdKeys)
    }

    method TrustOracleKey(key: Bytes)
      modifies this
      ensures trustedKeys == old(trustedKeys) + {key} && thresholdKeys == old(thresholdKeys)
    {
      trustedKeys := trustedKeys + {key};
    }

    method TrustThresholdOracleKey(key: Bytes)
      modifies this
      ensures thresholdKeys == old(thresholdKeys) + {key} && trustedKeys == old(trustedKeys)
    {
      thresholdKeys := thresholdKeys + {key};
    }

    method ValidateThresholdAttestations(c: Crypto, r: Receipt) returns (ok: bool)
      ensures ok <==> AttestationsOk(c, thresholdKeys, r)
    {
      var sigs := r.thresholdSignatures;
      if r.thresholdK == 0 && r.thresholdN == 0 && |sigs| == 0 { return true; }
      if r.thresholdK < 1 || r.thresholdN < 1 || r.thresholdK > r.thresholdN { return false; }
      if |sigs| < r.thresholdK || |sigs| > r.thresholdN { return false; }
      var payload := c.encode(SigningPayload(r));
      var seen: set<string> := {};
      for i := 0 to |sigs|
        invariant seen == set j | 0 <= j < i :: sigs[j].oracleID
        invariant DistinctOracles(sigs[..i])
        invariant forall j | 0 <= j < i :: AttestationOk(c, thresholdKeys, payload, sigs[j])
      {
        if sigs[i].oracleID == "" { assert sigs[i] in sigs; return false; }
        if sigs[i].oracleID in seen { return false; }
        seen := seen + {sigs[i].oracleID};
        if !AttestationOk(c, thresholdKeys, payload, sigs[i]) { assert sigs[i] in sigs; return false; }
      }
      assert sigs[..|sigs|] == sigs;
      ok := true;
    }

    method CheckLink(c: Crypto, prev: Receipt, r: Receipt, i: nat) returns (err: Option<ChainError>)
      ensures err.None? <==> Links(c, prev, r) && (r.oraclePublicKey == prev.oraclePublicKey
                             || (Trusted(trustedKeys, prev.oraclePublicKey) && Trusted(trustedKeys, r.oraclePublicKey)))
    {
      if r.seqNo != NextSeq(prev.seqNo) { return Some(BrokenSequence(i)); }
      if r.previousHash.None? { return Some(MissingPreviousHash(i)); }
      if r.previousHash.value != c.hash(prev.signature) { return Some(HashMismatch(i)); }
      if r.oraclePublicKey != prev.oraclePublicKey {
        if !Trusted(trustedKeys, prev.oraclePublicKey) || !Trusted(trustedKeys, r.oraclePublicKey) {
          return Some(UntrustedRotation(i));
        }
      }
      err := None;
    }

    method CheckReceipt(c: Crypto, r: Receipt, i: nat) returns (err: Option<ChainError>)
      ensures err.None? <==> ReceiptOk(c, TrustSets(), r)
    {
      if !VerifyReceipt(c, r) { return Some(BadSignature(i)); }
      if !Trusted(trustedKeys, r.oraclePublicKey) { return Some(UntrustedKey(i)); }
      var ok := ValidateThresholdAttestations(c, r);
      if !ok { return Some(BadAttestations(i)); }
      err := None;
    }

    /** Accepts exactly the valid chains. */
    method ValidateReceiptChain(c: Crypto, rs: seq<Receipt>) returns (err: Option<ChainError>)
      ensures err.None? <==> ChainValid(c, TrustSets(), rs)
    {
      if |rs| == 0 { return Some(EmptyChain); }
      for i := 0 to |rs|
        invariant forall j | 0 <= j < i :: ReceiptOk(c, TrustSets(), rs[j])
        invariant forall j | 0 < j < i :: Links(c, rs[j - 1], rs[j])
      {
        if i > 0 {
          err := CheckLink(c, rs[i - 1], rs[i], i);
          if err.Some? {
            assert !Links(c, rs[i - 1], rs[i]) || !ReceiptOk(c, TrustSets(), rs[i]);
            return;
          }
        }
        err := CheckReceipt(c, rs[i], i);
        if err.Some? { return; }
      }
      err := None;
    }
  }

  /** Threshold round trip: a receipt that carries SignThreshold's output over its payload passes the check. */
  lemma SignedAttestationsOk(c: Crypto, keys: set<Bytes>, g: Group, r: Receipt)
    requires Lawful(c) && WellFormed(c, g)
    requires r.thresholdK == g.k && r.thresholdN == |g.members|
    requires r.thresholdSignatures == Signatures(c, g, c.encode(SigningPayload(r)))
    requires forall m <- g.members :: Trusted(keys, m.publicKey)
    ensures AttestationsOk(c, keys, r)
  {
    var sigs := r.thresholdSignatures;
    forall i, j | 0 <= i < j < |sigs|
      ensures sigs[i].oracleID != sigs[j].oracleID
    {
      if sigs[i].oracleID == sigs[j].oracleID { OracleNamesDistinct(i, j); }
    }
    forall s <- sigs
      ensures AttestationOk(c, keys, c.encode(SigningPayload(r)), s)
    {
      var i :| 0 <= i < |sigs| && sigs[i] == s;
      assert g.members[i] in g.members;
      assert |OracleName(i)| >= 7;
    }
  }

  // ----- Names and keys in attestations -----

  /** k accepted attestations carry k distinct keys if and only if no two share a key; more carry k if no two do. */
  lemma DistinctKeysAttest(c: Crypto, keys: set<Bytes>, r: Receipt)
    requires AttestationsOk(c, keys, r)
    ensures var sigs := r.thresholdSignatures;
            && (|sigs| == r.thresholdK ==> (|KeysOf(sigs)| >= r.thresholdK <==> DistinctKeys(sigs)))
            && (DistinctKeys(sigs) ==> |KeysOf(sigs)| >= r.thresholdK)
  {
    KeysIff(r.thresholdSignatures);
  }

  /** One trusted key under k names passes as k attestations. */
  lemma OneKeyAttestsForMany(c: Crypto, keys: set<Bytes>, sk: Bytes, r: Receipt, k: nat, n: nat)
    requires Lawful(c) && Trusted(keys, c.publicKey(sk)) && 1 <= k <= n
    ensures var attested := r.(thresholdK := k, thresholdN := n,
                             thresholdSignatures := Renamed(c, sk, c.encode(SigningPayload(r)), k));
            AttestationsOk(c, keys, attested) && KeysOf(attested.thresholdSignatures) == {c.publicKey(sk)}
  {
    var payload := c.encode(SigningPayload(r));
    var sigs := Renamed(c, sk, payload, k);
    var attested := r.(thresholdK := k, thresholdN := n, thresholdSignatures := sigs);
    assert SigningPayload(attested) == SigningPayload(r);
    forall i, j | 0 <= i < j < |sigs|
      ensures sigs[i].oracleID != sigs[j].oracleID
    {
      if sigs[i].oracleID == sigs[j].oracleID { OracleNamesDistinct(i, j); }
    }
    assert sigs[0].publicKey in KeysOf(sigs);
    assert KeysOf(sigs) == {c.publicKey(sk)};
  }

  // ----- The keys offered for verification -----

  ghost predicate NoRepeats(keys: seq<Bytes>) {
    forall i, j | 0 <= i < j < |keys| :: keys[i] != keys[j]
  }

  /** The distinct non-empty keys of the receipts and the generator's current key. */
  method ReceiptPublicKeys(rs: seq<Receipt>, current: Bytes) returns (keys: seq<Bytes>)
    ensures NoRepeats(keys) && [] !in keys
    ensures forall k :: k in keys <==> k != [] && (k == current || exists r <- rs :: r.oraclePublicKey == k)
  {
    keys := [];
    for i := 0 to |rs|
      invariant NoRepeats(keys) && [] !in keys
      invariant forall k :: k in keys <==> k != [] && exists j :: 0 <= j < i && rs[j].oraclePublicKey == k
    {
      keys := AddKey(keys, rs[i].oraclePublicKey);
    }
    keys := AddKey(keys, current);
  }

  method AddKey(keys: seq<Bytes>, key: Bytes) returns (more: seq<Bytes>)
    requires NoRepeats(keys)
    ensures NoRepeats(more)
    ensures forall k :: k in more <==> k in keys || (k == key && k != [])
  {
    if |key| == 0 { return keys; }
    for i := 0 to |keys|
      invariant forall j | 0 <= j < i :: keys[j] != key
    {
      if keys[i] == key { return keys; }
    }
    more := keys + [key];
  }

  /** Trusting exactly the offered keys accepts every chain that is valid when all keys are trusted. */
  lemma OfferedKeysSuffice(c: Crypto, thresholdKeys: set<Bytes>, rs: seq<Receipt>, current: Bytes, keys: seq<Bytes>)
    requires forall k :: k in keys <==> k != [] && (k == current || exists r <- rs :: r.oraclePublicKey == k)
    requires forall r <- rs :: r.oraclePublicKey != []
    ensures ChainValid(c, Trust({}, thresholdKeys), rs)
            <==> ChainValid(c, Trust((set k | k in keys), thresholdKeys), rs)
  {
    forall i | 0 <= i < |rs|
      ensures ReceiptOk(c, Trust({}, thresholdKeys), rs[i])
              <==> ReceiptOk(c, Trust((set k | k in keys), thresholdKeys), rs[i])
    {
      assert rs[i] in rs;
      assert rs[i].oraclePublicKey in keys;
    }
  }

  // ----- What the last signature of a chain commits to -----

  /** The fields covered by a receipt's signature, with evidence and proof status normalised. */
  datatype SignedView = SignedView(
    id: string, transactionID: string, policyID: string, fingerprint: string, raw: Bytes,
    evidenceClass: string, proofStatus: string, seqNo: uint64, timestamp: int, proofs: seq<ISDProof>,
    previousHash: Bytes)

  function View(r: Receipt): SignedView {
    SignedView(r.id, r.transactionID, r.policyID, r.path.fingerprint, r.path.raw,
               NormalizeEvidenceClass(r.evidenceClass), NormalizeProofStatus(r.proofStatus),
               r.seqNo, r.timestamp, r.isdProofs, OrEmpty(r.previousHash))
  }

  /** Two verified receipts with one signature agree on everything signed, whichever payload form each used. */
  lemma SameSignatureSameView(c: Crypto, a: Receipt, b: Receipt)
    requires Binding(c) && VerifyReceipt(c, a) && VerifyReceipt(c, b) && a.signature == b.signature
    ensures View(a) == View(b)
  {
    var p := if c.verify(a.oraclePublicKey, c.encode(SigningPayload(a)), a.signature) then SigningPayload(a)
             else LegacyPayload(a);
    var q := if c.verify(b.oraclePublicKey, c.encode(SigningPayload(b)), b.signature) then SigningPayload(b)
             else LegacyPayload(b);
    assert c.verify(a.oraclePublicKey, c.encode(p), a.signature)
           && c.verify(b.oraclePublicKey, c.encode(q), b.signature);
    assert c.encode(p) == c.encode(q);
    assert p == q;
  }

  /** The last signature of a valid chain commits to every position of it. */
  lemma {:induction false} ChainCommitment(c: Crypto, t: Trust, u: Trust, a: seq<Receipt>, b: seq<Receipt>, i: nat)
    requires Binding(c) && ChainValid(c, t, a) && ChainValid(c, u, b)
    requires |a| == |b| && a[|a| - 1].signature == b[|b| - 1].signature && i < |a|
    ensures a[i].signature == b[i].signature && View(a[i]) == View(b[i])
    decreases |a| - i
  {
    if i + 1 < |a| {
      ChainCommitment(c, t, u, a, b, i + 1);
      assert Links(c, a[i], a[i + 1]) && Links(c, b[i], b[i + 1]);
      assert c.hash(a[i].signature) == c.hash(b[i].signature);
    }
    assert ReceiptOk(c, t, a[i]) && ReceiptOk(c, u, b[i]);
    SameSignatureSameView(c, a[i], b[i]);
  }
}
