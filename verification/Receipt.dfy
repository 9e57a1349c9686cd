/** Receipts, paths and the cryptographic primitives they are signed with. */
module ReceiptTypes {
  import opened Base

  type byte = x: int | 0 <= x < 256
  type Bytes = seq<byte>

  const PUBLIC_KEY_SIZE := 32

  datatype Hop = Hop(ia: string, isd: nat, asNumber: string, mac: Bytes)

  datatype Path = Path(raw: Bytes, hops: seq<Hop>, fingerprint: string, evidenceClass: string, proofStatus: string)

  datatype ISDProof = ISDProof(ia: string, isd: nat, trcSerial: nat, certChain: Bytes, verificationStatus: string,
                               proofSource: string)

  datatype ThresholdSignature = ThresholdSignature(oracleID: string, signature: Bytes, publicKey: Bytes)

  datatype Receipt = Receipt(
    id: string, transactionID: string, policyID: string, path: Path,
    evidenceClass: string, proofStatus: string, isdProofs: seq<ISDProof>,
    seqNo: uint64, timestamp: int, signature: Bytes, oraclePublicKey: Bytes,
    previousHash: Option<Bytes>, thresholdK: int, thresholdN: int, thresholdSignatures: seq<ThresholdSignature>)

  const EXPLICIT_DEMO := "explicit-demo"
  const UNVERIFIED := "unverified"
  const MIXED := "mixed"

  function NormalizeEvidenceClass(v: string): string { if v != "" then v else EXPLICIT_DEMO }
  function NormalizeProofStatus(v: string): string { if v != "" then v else UNVERIFIED }

  /** The two structures that are serialised for signing. Absent and empty byte strings serialise alike. */
  datatype Payload =
    | Modern(id: string, transactionID: string, policyID: string, fingerprint: string, raw: Bytes,
             evidenceClass: string, proofStatus: string, seqNo: uint64, timestamp: int,
             proofs: seq<ISDProof>, previousHash: Bytes)
    | Legacy(id: string, transactionID: string, policyID: string, fingerprint: string, raw: Bytes,
             seqNo: uint64, timestamp: int, proofs: seq<ISDProof>, previousHash: Bytes)

  /**
   The primitives, as functions about which nothing is known but the laws a theorem asks for:
   Ed25519 signing and verification, SHA-256, and the JSON serialisation of the signed structure.
   */
  datatype Crypto = Crypto(
    publicKey: Bytes -> Bytes,
    sign: (Bytes, Bytes) -> Bytes,
    verify: (Bytes, Bytes, Bytes) -> bool,
    hash: Bytes -> Bytes,
    encode: Payload -> Bytes)

  /** What is signed with a private key verifies with its public key, and public keys have 32 bytes. */
  ghost predicate Lawful(c: Crypto) {
    && (forall sk, m :: c.verify(c.publicKey(sk), m, c.sign(sk, m)))
    && (forall sk :: |c.publicKey(sk)| == PUBLIC_KEY_SIZE)
  }

  /** No two inputs share a hash or a serialisation, and no signature verifies for two messages. */
  ghost predicate Binding(c: Crypto) {
    && (forall a, b :: c.hash(a) == c.hash(b) ==> a == b)
    && (forall p, q :: c.encode(p) == c.encode(q) ==> p == q)
    && (forall pk, pk', m, m', s :: c.verify(pk, m, s) && c.verify(pk', m', s) ==> m == m')
  }

  function OrEmpty(b: Option<Bytes>): Bytes { if b.Some? then b.value else [] }

  function SigningPayload(r: Receipt): Payload {
    Modern(r.id, r.transactionID, r.policyID, r.path.fingerprint, r.path.raw,
           NormalizeEvidenceClass(r.evidenceClass), NormalizeProofStatus(r.proofStatus),
           r.seqNo, r.timestamp, r.isdProofs, OrEmpty(r.previousHash))
  }

  function LegacyPayload(r: Receipt): Payload {
    Legacy(r.id, r.transactionID, r.policyID, r.path.fingerprint, r.path.raw,
           r.seqNo, r.timestamp, r.isdProofs, OrEmpty(r.previousHash))
  }

  predicate LegacyCandidate(r: Receipt) {
    r.evidenceClass == "" && r.proofStatus == ""
  }

  predicate VerifyReceipt(c: Crypto, r: Receipt) {
    || c.verify(r.oraclePublicKey, c.encode(SigningPayload(r)), r.signature)
    || (LegacyCandidate(r) && c.verify(r.oraclePublicKey, c.encode(LegacyPayload(r)), r.signature))
  }
}

/** k-of-n threshold signing with independent keys. */
module Threshold {
  import opened Base
  import opened ReceiptTypes

  datatype Member = Member(id: string, privateKey: Bytes, publicKey: Bytes)
  datatype Group = Group(k: nat, members: seq<Member>)

  // ----- Oracle names -----

  function Digit(d: nat): char
    requires d < 10
  {
    "0123456789"[d]
  }

  /** Decimal rendering, as fmt's %d. */
  function Decimal(n: nat): string {
    if n < 10 then [Digit(n)] else Decimal(n / 10) + [Digit(n % 10)]
  }

  function OracleName(i: nat): string { "oracle-" + Decimal(i) }

  lemma DigitInjective(a: nat, b: nat)
    requires a < 10 && b < 10 && Digit(a) == Digit(b)
    ensures a == b
  {
    var s := "0123456789";
    assert forall i, j | 0 <= i < j < 10 :: s[i] != s[j];
  }

  /** Different numbers are rendered differently. */
  lemma {:induction false} DecimalInjective(a: nat, b: nat)
    requires Decimal(a) == Decimal(b)
    ensures a == b
    decreases a + b
  {
    var x, y := Decimal(a), Decimal(b);
    DecimalNonEmpty(a / 10);
    DecimalNonEmpty(b / 10);
    assert x[|x| - 1] == Digit(a % 10) && y[|y| - 1] == Digit(b % 10);
    DigitInjective(a % 10, b % 10);
    if a >= 10 && b >= 10 {
      assert x[..|x| - 1] == Decimal(a / 10) && y[..|y| - 1] == Decimal(b / 10);
      DecimalInjective(a / 10, b / 10);
    }
  }

  lemma DecimalNonEmpty(n: nat)
    ensures |Decimal(n)| > 0
  {
  }

  lemma OracleNamesDistinct(i: nat, j: nat)
    requires OracleName(i) == OracleName(j)
    ensures i == j
  {
    assert OracleName(i)[7..] == Decimal(i) && OracleName(j)[7..] == Decimal(j);
    DecimalInjective(i, j);
  }

  // ----- Construction and signing -----

  /** A group as NewThresholdOracle builds it from freshly generated key pairs. */
  ghost predicate WellFormed(c: Crypto, g: Group) {
    && 1 <= g.k <= |g.members|
    && forall i | 0 <= i < |g.members| ::
         g.members[i].id == OracleName(i) && g.members[i].publicKey == c.publicKey(g.members[i].privateKey)
  }

  /** `keys` are the generated private keys; a group exists exactly when 1 <= k <= n. */
  method NewThresholdOracle(c: Crypto, k: int, n: int, keys: seq<Bytes>) returns (g: Option<Group>)
    requires |keys| >= n
    ensures g.Some? <==> 1 <= k <= n
    ensures g.Some? ==> g.value.k == k && |g.value.members| == n && WellFormed(c, g.value)
    ensures g.Some? ==> forall i | 0 <= i < n :: g.value.members[i].privateKey == keys[i]
  {
    if k < 1 || k > n { return None; }
    var members := [];
    for i := 0 to n
      invariant |members| == i
      invariant forall j | 0 <= j < i :: members[j] == Member(OracleName(j), keys[j], c.publicKey(keys[j]))
    {
      members := members + [Member(OracleName(i), keys[i], c.publicKey(keys[i]))];
    }
    g := Some(Group(k, members));
  }

  function PartialSign(c: Crypto, m: Member, data: Bytes): ThresholdSignature {
    ThresholdSignature(m.id, c.sign(m.privateKey, data), m.publicKey)
  }

  /** The signatures of the first k members. */
  function Signatures(c: Crypto, g: Group, data: Bytes): (sigs: seq<ThresholdSignature>)
    requires g.k <= |g.members|
    ensures |sigs| == g.k
  {
    seq(g.k, i requires 0 <= i < g.k => PartialSign(c, g.members[i], data))
  }

  method SignThreshold(c: Crypto, g: Group, data: Bytes) returns (sigs: seq<ThresholdSignature>, k: nat, n: nat)
    requires g.k <= |g.members|
    ensures sigs == Signatures(c, g, data) && k == g.k && n == |g.members|
  {
    sigs := [];
    for i := 0 to g.k
      invariant |sigs| == i && forall j | 0 <= j < i :: sigs[j] == PartialSign(c, g.members[j], data)
    {
      sigs := sigs + [PartialSign(c, g.members[i], data)];
    }
    k, n := g.k, |g.members|;
  }

  // ----- Verification -----

  ghost predicate GroupKey(g: Group, key: Bytes) {
    exists m <- g.members :: m.publicKey == key
  }

  /** Entry i is the first with its oracle ID and carries a group key. */
  ghost predicate Candidate(g: Group, sigs: seq<ThresholdSignature>, i: nat)
    requires i < |sigs|
  {
    (forall j | 0 <= j < i :: sigs[j].oracleID != sigs[i].oracleID) && GroupKey(g, sigs[i].publicKey)
  }

  /** Entry i is the first with its oracle ID, carries a group key and a valid signature. */
  ghost predicate Counts(c: Crypto, g: Group, data: Bytes, sigs: seq<ThresholdSignature>, i: nat)
    requires i < |sigs|
  {
    Candidate(g, sigs, i) && c.verify(sigs[i].publicKey, data, sigs[i].signature)
  }

  /** The oracle IDs whose first entry is good. */
  ghost function GoodOracles(c: Crypto, g: Group, data: Bytes, sigs: seq<ThresholdSignature>): set<string> {
    set i | 0 <= i < |sigs| && Counts(c, g, data, sigs, i) :: sigs[i].oracleID
  }

  /** Accepts exactly when at least k distinct oracle IDs are good. */
  method VerifyThreshold(c: Crypto, g: Group, data: Bytes, sigs: seq<ThresholdSignature>) returns (ok: bool)
    ensures ok <==> |sigs| >= g.k && |GoodOracles(c, g, data, sigs)| >= g.k
  {
    if |sigs| < g.k { return false; }
    var known: set<Bytes> := {};
    for i := 0 to |g.members|
      invariant known == set j | 0 <= j < i :: g.members[j].publicKey
    {
      known := known + {g.members[i].publicKey};
    }
    assert forall key :: key in known <==> GroupKey(g, key);
    var seen: set<string> := {};
    var validCount := 0;
    for i := 0 to |sigs|
      invariant seen == set j | 0 <= j < i :: sigs[j].oracleID
      invariant validCount == |GoodOracles(c, g, data, sigs[..i])|
    {
      GoodStep(c, g, data, sigs, i);
      var ps := sigs[i];
      if ps.oracleID !in seen {
        seen := seen + {ps.oracleID};
        if ps.publicKey in known && c.verify(ps.publicKey, data, ps.signature) {
          validCount := validCount + 1;
        }
      }
    }
    assert sigs[..|sigs|] == sigs;
    ok := validCount >= g.k;
  }

  lemma GoodStep(c: Crypto, g: Group, data: Bytes, sigs: seq<ThresholdSignature>, i: nat)
    requires i < |sigs|
    ensures var a, b := GoodOracles(c, g, data, sigs[..i]), GoodOracles(c, g, data, sigs[..i + 1]);
            |b| == |a| + if Counts(c, g, data, sigs, i) then 1 else 0
  {
    var p, q := sigs[..i], sigs[..i + 1];
    var a, b := GoodOracles(c, g, data, p), GoodOracles(c, g, data, q);
    assert forall j | 0 <= j < i :: Counts(c, g, data, p, j) == Counts(c, g, data, q, j);
    assert Counts(c, g, data, q, i) == Counts(c, g, data, sigs, i);
    assert a <= b;
    if Counts(c, g, data, sigs, i) {
      assert sigs[i].oracleID !in a;
      assert b == a + {sigs[i].oracleID};
    } else {
      assert b == a;
    }
  }

  /** The output of SignThreshold is accepted by VerifyThreshold, for every group and payload. */
  lemma SignedIsAccepted(c: Crypto, g: Group, data: Bytes)
    requires Lawful(c) && WellFormed(c, g)
    ensures var sigs := Signatures(c, g, data);
            |sigs| >= g.k && |GoodOracles(c, g, data, sigs)| >= g.k
  {
    var sigs := Signatures(c, g, data);
    forall i | 0 <= i < g.k
      ensures Counts(c, g, data, sigs, i)
    {
      forall j | 0 <= j < i ensures sigs[j].oracleID != sigs[i].oracleID {
        if sigs[j].oracleID == sigs[i].oracleID { OracleNamesDistinct(j, i); }
      }
      assert g.members[i] in g.members;
    }
    NamesCount(c, g, data, sigs, g.k);
  }

  lemma {:induction false} NamesCount(c: Crypto, g: Group, data: Bytes, sigs: seq<ThresholdSignature>, n: nat)
    requires n <= |sigs| && forall i | 0 <= i < n :: Counts(c, g, data, sigs, i)
    ensures |GoodOracles(c, g, data, sigs[..n])| == n
    ensures n == |sigs| ==> |GoodOracles(c, g, data, sigs)| == n
  {
    if n > 0 {
      NamesCount(c, g, data, sigs, n - 1);
      GoodStep(c, g, data, sigs, n - 1);
    } else {
      assert sigs[..0] == [];
    }
    if n == |sigs| { assert sigs[..n] == sigs; }
  }

  // ----- Names and keys -----

  ghost function KeysOf(sigs: seq<ThresholdSignature>): set<Bytes> {
    set i | 0 <= i < |sigs| :: sigs[i].publicKey
  }

  /** No two entries share a key. */
  ghost predicate DistinctKeys(sigs: seq<ThresholdSignature>) {
    forall i, j | 0 <= i < j < |sigs| :: sigs[i].publicKey != sigs[j].publicKey
  }

  /** There are as many keys as entries if and only if no two entries share one. */
  lemma {:induction false} KeysIff(sigs: seq<ThresholdSignature>)
    ensures |KeysOf(sigs)| <= |sigs|
    ensures |KeysOf(sigs)| == |sigs| <==> DistinctKeys(sigs)
  {
    if sigs == [] {
      assert KeysOf(sigs) == {};
    } else {
      var n := |sigs| - 1;
      KeysIff(sigs[..n]);
      LastKey(sigs);
      assert KeysOf(sigs) == KeysOf(sigs[..n]) + {sigs[n].publicKey};
    }
  }

  lemma LastKey(sigs: seq<ThresholdSignature>)
    requires sigs != []
    ensures var n := |sigs| - 1;
            DistinctKeys(sigs) <==> DistinctKeys(sigs[..n]) && sigs[n].publicKey !in KeysOf(sigs[..n])
  {
    var n := |sigs| - 1;
    if sigs[n].publicKey in KeysOf(sigs[..n]) {
      var i :| 0 <= i < n && sigs[..n][i].publicKey == sigs[n].publicKey;
      assert sigs[i].publicKey == sigs[n].publicKey;
    } else {
      forall i | 0 <= i < n
        ensures sigs[i].publicKey != sigs[n].publicKey
      {
        assert sigs[..n][i].publicKey in KeysOf(sigs[..n]);
      }
    }
    assert forall i | 0 <= i < n :: sigs[..n][i] == sigs[i];
  }

  /** The values of xs at the given positions. */
  ghost function Image<T>(xs: seq<T>, at: set<nat>): set<T> {
    set i | i in at && i < |xs| :: xs[i]
  }

  ghost predicate Injective<T>(xs: seq<T>, at: set<nat>) {
    forall i, j | i in at && j in at && i < j < |xs| :: xs[i] != xs[j]
  }

  /** There are as many values as positions if and only if no value occurs twice. */
  lemma {:induction false} ImageSize<T>(xs: seq<T>, at: set<nat>)
    requires forall i <- at :: i < |xs|
    ensures |Image(xs, at)| <= |at|
    ensures |Image(xs, at)| == |at| <==> Injective(xs, at)
    decreases |at|
  {
    if at == {} {
      assert Image(xs, at) == {};
    } else {
      var i :| i in at;
      ImageSize(xs, at - {i});
      ImageStep(xs, at, i);
    }
  }

  lemma ImageStep<T>(xs: seq<T>, at: set<nat>, i: nat)
    requires i in at && forall j <- at :: j < |xs|
    ensures Image(xs, at) == Image(xs, at - {i}) + {xs[i]}
    ensures Injective(xs, at) <==> Injective(xs, at - {i}) && xs[i] !in Image(xs, at - {i})
  {
    forall x | x in Image(xs, at) ensures x in Image(xs, at - {i}) + {xs[i]} {
      var j :| j in at && xs[j] == x;
      if j != i { assert j in at - {i}; }
    }
    if xs[i] in Image(xs, at - {i}) {
      var j :| j in at - {i} && xs[j] == xs[i];
      assert j in at && !Injective(xs, at);
    } else {
      forall j | j in at && j != i ensures xs[j] != xs[i] { assert j in at - {i}; }
    }
  }

  function Keys(sigs: seq<ThresholdSignature>): seq<Bytes> {
    seq(|sigs|, i requires 0 <= i < |sigs| => sigs[i].publicKey)
  }

  function Names(sigs: seq<ThresholdSignature>): seq<string> {
    seq(|sigs|, i requires 0 <= i < |sigs| => sigs[i].oracleID)
  }

  /** The positions that VerifyThreshold counts, and those it would count if their signatures were valid. */
  ghost function CountedAt(c: Crypto, g: Group, data: Bytes, sigs: seq<ThresholdSignature>): set<nat> {
    set i: nat | i < |sigs| && Counts(c, g, data, sigs, i)
  }

  ghost function CandidatesAt(g: Group, sigs: seq<ThresholdSignature>): set<nat> {
    set i: nat | i < |sigs| && Candidate(g, sigs, i)
  }

  /** The distinct group keys behind the counted oracle IDs. */
  ghost function SigningKeys(c: Crypto, g: Group, data: Bytes, sigs: seq<ThresholdSignature>): set<Bytes> {
    Image(Keys(sigs), CountedAt(c, g, data, sigs))
  }

  /** One oracle ID is counted per position. */
  lemma CountedSize(c: Crypto, g: Group, data: Bytes, sigs: seq<ThresholdSignature>)
    ensures |CountedAt(c, g, data, sigs)| == |GoodOracles(c, g, data, sigs)|
  {
    var at := CountedAt(c, g, data, sigs);
    forall x | x in GoodOracles(c, g, data, sigs)
      ensures x in Image(Names(sigs), at)
    {
      var i :| 0 <= i < |sigs| && Counts(c, g, data, sigs, i) && sigs[i].oracleID == x;
      assert i in at && Names(sigs)[i] == x;
    }
    assert GoodOracles(c, g, data, sigs) == Image(Names(sigs), at);
    assert Injective(Names(sigs), at);
    ImageSize(Names(sigs), at);
  }

  /**
   Verification counts oracle IDs, which the sender chooses.  As many distinct group keys have signed as
   IDs were counted if and only if no two counted entries share a key.
   */
  lemma KeysSignedIff(c: Crypto, g: Group, data: Bytes, sigs: seq<ThresholdSignature>)
    ensures var keys, good := SigningKeys(c, g, data, sigs), GoodOracles(c, g, data, sigs);
            |keys| <= |good| && (|keys| == |good| <==> Injective(Keys(sigs), CountedAt(c, g, data, sigs)))
  {
    CountedSize(c, g, data, sigs);
    ImageSize(Keys(sigs), CountedAt(c, g, data, sigs));
  }

  /** An accepted list of exactly k entries carries k distinct group keys if and only if no two entries share a key. */
  lemma ExactlyKIff(c: Crypto, g: Group, data: Bytes, sigs: seq<ThresholdSignature>)
    requires |sigs| == g.k && |GoodOracles(c, g, data, sigs)| >= g.k
    ensures |SigningKeys(c, g, data, sigs)| >= g.k <==> DistinctKeys(sigs)
  {
    var at := CountedAt(c, g, data, sigs);
    CountedSize(c, g, data, sigs);
    FullBelow(at, g.k);
    KeysSignedIff(c, g, data, sigs);
    if Injective(Keys(sigs), at) {
      forall i, j | 0 <= i < j < |sigs|
        ensures sigs[i].publicKey != sigs[j].publicKey
      {
        assert i in at && j in at && Keys(sigs)[i] != Keys(sigs)[j];
      }
    }
  }

  /** n different numbers below n are all of them. */
  lemma {:induction false} FullBelow(at: set<nat>, n: nat)
    requires (forall i <- at :: i < n) && |at| >= n
    ensures |at| == n && forall i: nat | i < n :: i in at
  {
    if n == 0 {
      assert at == {};
    } else {
      FullBelow(at - {n - 1}, n - 1);
    }
  }

  // ----- The promise over all signings -----

  /** The same names and keys, with any signatures. */
  ghost predicate SameEntries(a: seq<ThresholdSignature>, b: seq<ThresholdSignature>) {
    |a| == |b| && forall i | 0 <= i < |a| :: a[i].oracleID == b[i].oracleID && a[i].publicKey == b[i].publicKey
  }

  /** If the list is accepted, k distinct group keys have signed. */
  ghost predicate KeepsPromise(c: Crypto, g: Group, data: Bytes, sigs: seq<ThresholdSignature>) {
    |GoodOracles(c, g, data, sigs)| >= g.k ==> |SigningKeys(c, g, data, sigs)| >= g.k
  }

  /** `wrong` gives, for every key and message, a signature that does not verify. */
  ghost predicate Refused(c: Crypto, wrong: (Bytes, Bytes) -> Bytes) {
    forall pk, m :: !c.verify(pk, m, wrong(pk, m))
  }

  /** What a caller can check of names and keys alone: k is one, too few entries can count, or their keys differ. */
  ghost predicate SafeEntries(g: Group, sigs: seq<ThresholdSignature>) {
    g.k == 1 || |CandidatesAt(g, sigs)| < g.k || Injective(Keys(sigs), CandidatesAt(g, sigs))
  }

  lemma SameCandidates(g: Group, a: seq<ThresholdSignature>, b: seq<ThresholdSignature>)
    requires SameEntries(a, b)
    ensures CandidatesAt(g, a) == CandidatesAt(g, b) && Keys(a) == Keys(b)
  {
    forall i: nat | i < |a| ensures Candidate(g, a, i) == Candidate(g, b, i) {
    }
  }

  lemma SafeEntriesKeep(c: Crypto, g: Group, data: Bytes, sigs: seq<ThresholdSignature>)
    requires 1 <= g.k && SafeEntries(g, sigs)
    ensures KeepsPromise(c, g, data, sigs)
  {
    var at := CountedAt(c, g, data, sigs);
    CountedSize(c, g, data, sigs);
    KeysSignedIff(c, g, data, sigs);
    if |at| >= g.k {
      SubsetSize(at, CandidatesAt(g, sigs));
      if g.k == 1 {
        var i :| i in at;
        assert Keys(sigs)[i] in SigningKeys(c, g, data, sigs);
      } else {
        assert Injective(Keys(sigs), at);
      }
    }
  }

  /** k of the given numbers, two of them named. */
  lemma {:induction false} Pick(from: set<nat>, i: nat, j: nat, k: nat) returns (some: set<nat>)
    requires i in from && j in from && i != j && 2 <= k <= |from|
    ensures some <= from && |some| == k && i in some && j in some
    decreases |from|
  {
    if |from| == k {
      some := from;
    } else {
      SubsetSize({i, j}, from);
      if from <= {i, j} { SubsetSize(from, {i, j}); }
      var x :| x in from && x !in {i, j};
      some := Pick(from - {x}, i, j, k);
    }
  }

  /** A signature for data that is valid under the key exactly if wanted. */
  lemma SignatureFor(c: Crypto, wrong: (Bytes, Bytes) -> Bytes, g: Group, data: Bytes, key: Bytes, wanted: bool)
    returns (s: Bytes)
    requires Lawful(c) && WellFormed(c, g) && Refused(c, wrong) && (wanted ==> GroupKey(g, key))
    ensures c.verify(key, data, s) == wanted
  {
    if wanted {
      var m :| m in g.members && m.publicKey == key;
      s := c.sign(m.privateKey, data);
    } else {
      s := wrong(key, data);
    }
  }

  /** The same entries, signed validly at exactly the given candidates. */
  lemma {:induction false} Resign(c: Crypto, wrong: (Bytes, Bytes) -> Bytes, g: Group, data: Bytes,
                                  sigs: seq<ThresholdSignature>, at: set<nat>, n: nat)
    returns (b: seq<ThresholdSignature>)
    requires Lawful(c) && WellFormed(c, g) && Refused(c, wrong) && n <= |sigs|
    requires forall i <- at :: i < |sigs| && GroupKey(g, sigs[i].publicKey)
    ensures SameEntries(sigs[..n], b)
    ensures forall i: nat | i < n :: c.verify(b[i].publicKey, data, b[i].signature) <==> i in at
  {
    if n == 0 {
      b := [];
    } else {
      var p := Resign(c, wrong, g, data, sigs, at, n - 1);
      var s := SignatureFor(c, wrong, g, data, sigs[n - 1].publicKey, n - 1 in at);
      b := p + [sigs[n - 1].(signature := s)];
    }
  }

  lemma UnsafeEntriesBreak(c: Crypto, wrong: (Bytes, Bytes) -> Bytes, g: Group, data: Bytes,
                           sigs: seq<ThresholdSignature>)
    returns (b: seq<ThresholdSignature>)
    requires Lawful(c) && WellFormed(c, g) && Refused(c, wrong) && !SafeEntries(g, sigs)
    ensures SameEntries(sigs, b) && !KeepsPromise(c, g, data, b)
  {
    var all := CandidatesAt(g, sigs);
    var i, j :| i in all && j in all && i < j < |sigs| && Keys(sigs)[i] == Keys(sigs)[j];
    var at := Pick(all, i, j, g.k);
    b := Resign(c, wrong, g, data, sigs, at, |sigs|);
    assert sigs[..|sigs|] == sigs;
    SignedAt(c, g, data, sigs, b, at);
    CountedSize(c, g, data, b);
    KeysSignedIff(c, g, data, b);
    assert i in at && j in at && !Injective(Keys(b), at);
  }

  lemma SignedAt(c: Crypto, g: Group, data: Bytes, sigs: seq<ThresholdSignature>, b: seq<ThresholdSignature>,
                 at: set<nat>)
    requires SameEntries(sigs, b) && at <= CandidatesAt(g, sigs)
    requires forall i: nat | i < |b| :: c.verify(b[i].publicKey, data, b[i].signature) <==> i in at
    ensures CountedAt(c, g, data, b) == at && Keys(b) == Keys(sigs)
  {
    SameCandidates(g, sigs, b);
    forall i: nat | i < |b|
      ensures i in CountedAt(c, g, data, b) <==> i in at
    {
      assert i in CandidatesAt(g, sigs) <==> Candidate(g, b, i);
    }
  }

  /**
   The promise that at least k oracles sign, for any list of names and keys: every way of signing it that is
   accepted has k distinct group keys behind it, if and only if k is one, too few entries can count, or no
   two entries that can count share a key.
   */
  lemma KeysPromisedIff(c: Crypto, wrong: (Bytes, Bytes) -> Bytes, g: Group, data: Bytes, sigs: seq<ThresholdSignature>)
    requires Lawful(c) && WellFormed(c, g) && Refused(c, wrong)
    ensures (forall b | SameEntries(sigs, b) :: KeepsPromise(c, g, data, b)) <==> SafeEntries(g, sigs)
  {
    if SafeEntries(g, sigs) {
      forall b | SameEntries(sigs, b)
        ensures KeepsPromise(c, g, data, b)
      {
        SameCandidates(g, sigs, b);
        SafeEntriesKeep(c, g, data, b);
      }
    } else {
      var b := UnsafeEntriesBreak(c, wrong, g, data, sigs);
      assert SameEntries(sigs, b);
    }
  }

  /** Every entry carries the name of the member that holds its key. */
  ghost predicate HonestNames(g: Group, sigs: seq<ThresholdSignature>) {
    forall s <- sigs :: forall m <- g.members :: m.publicKey == s.publicKey ==> m.id == s.oracleID
  }

  /** Members' own names on their keys make the entries safe, so an accepted list carries k distinct group keys. */
  lemma HonestNamesSuffice(c: Crypto, g: Group, data: Bytes, sigs: seq<ThresholdSignature>)
    requires 1 <= g.k && HonestNames(g, sigs)
    ensures SafeEntries(g, sigs) && KeepsPromise(c, g, data, sigs)
  {
    var at := CandidatesAt(g, sigs);
    forall i, j | i in at && j in at && i < j < |sigs|
      ensures Keys(sigs)[i] != Keys(sigs)[j]
    {
      assert sigs[i] in sigs && sigs[j] in sigs;
      var m :| m in g.members && m.publicKey == sigs[i].publicKey;
    }
    SafeEntriesKeep(c, g, data, sigs);
  }

  /** One signature, repeated under n different names. */
  function Renamed(c: Crypto, sk: Bytes, data: Bytes, n: nat): seq<ThresholdSignature> {
    seq(n, i requires 0 <= i < n => ThresholdSignature(OracleName(i), c.sign(sk, data), c.publicKey(sk)))
  }

  /** For every group: k copies of one member's signature under k names are accepted, with one key behind them. */
  lemma OneKeyUnderManyNames(c: Crypto, g: Group, data: Bytes, m: Member)
    requires Lawful(c) && WellFormed(c, g) && m in g.members
    ensures var sigs := Renamed(c, m.privateKey, data, g.k);
            && |sigs| >= g.k && |GoodOracles(c, g, data, sigs)| >= g.k
            && SigningKeys(c, g, data, sigs) == {m.publicKey}
  {
    var sigs := Renamed(c, m.privateKey, data, g.k);
    forall i | 0 <= i < g.k
      ensures Counts(c, g, data, sigs, i)
    {
      forall j | 0 <= j < i ensures sigs[j].oracleID != sigs[i].oracleID {
        if sigs[j].oracleID == sigs[i].oracleID { OracleNamesDistinct(j, i); }
      }
    }
    NamesCount(c, g, data, sigs, g.k);
    assert 0 in CountedAt(c, g, data, sigs) && Keys(sigs)[0] == m.publicKey;
    assert SigningKeys(c, g, data, sigs) == {m.publicKey};
  }
}
