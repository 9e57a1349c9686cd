/** Big-endian keys: byte order is numeric order. */
module BigEndian {
  import opened Base
  import opened ReceiptTypes

  /** The order in which a Bolt bucket keeps its keys. */
  predicate LexLess(a: Bytes, b: Bytes) {
    if b == [] then false
    else if a == [] then true
    else if a[0] != b[0] then a[0] < b[0]
    else LexLess(a[1..], b[1..])
  }

  function Value(k: Bytes): nat {
    if k == [] then 0 else Value(k[..|k| - 1]) * 256 + k[|k| - 1]
  }

  function Encode(n: nat, len: nat): (k: Bytes)
    ensures |k| == len
  {
    if len == 0 then [] else Encode(n / 256, len - 1) + [n % 256]
  }

  function Pow256(len: nat): nat { if len == 0 then 1 else 256 * Pow256(len - 1) }

  lemma {:induction false} EncodeValue(n: nat, len: nat)
    requires n < Pow256(len)
    ensures Value(Encode(n, len)) == n
  {
    if len > 0 {
      EncodeValue(n / 256, len - 1);
      assert Encode(n, len)[..len - 1] == Encode(n / 256, len - 1);
    }
  }

  lemma {:induction false} ValueEncode(k: Bytes)
    ensures Encode(Value(k), |k|) == k
  {
    if k != [] {
      var n := |k| - 1;
      ValueEncode(k[..n]);
      assert Value(k) / 256 == Value(k[..n]) && Value(k) % 256 == k[n];
      assert k[..n] + [k[n]] == k;
    }
  }

  lemma Pow256Of8()
    ensures Pow256(8) == TWO_64
  {
    assert Pow256(1) == 256 && Pow256(2) == 0x1_0000 && Pow256(3) == 0x100_0000 && Pow256(4) == 0x1_0000_0000;
    assert Pow256(5) == 0x100_0000_0000 && Pow256(6) == 0x1_0000_0000_0000 && Pow256(7) == 0x100_0000_0000_0000;
  }

  /** Keys of equal length are compared at the last byte only if everything before it is equal. */
  lemma {:induction false} LexByLast(a: Bytes, b: Bytes)
    requires |a| == |b| > 0
    ensures var n := |a| - 1;
            LexLess(a, b) <==> LexLess(a[..n], b[..n]) || (a[..n] == b[..n] && a[n] < b[n])
  {
    var n := |a| - 1;
    if n > 0 && a[0] == b[0] {
      LexByLast(a[1..], b[1..]);
      assert a[1..][..n - 1] == a[..n][1..] && b[1..][..n - 1] == b[..n][1..];
      assert a[..n] == [a[0]] + a[..n][1..] && b[..n] == [b[0]] + b[..n][1..];
    }
  }

  /** Byte order of equally long keys is the order of the numbers they encode. */
  lemma {:induction false} OrderIsNumeric(a: Bytes, b: Bytes)
    requires |a| == |b|
    ensures LexLess(a, b) <==> Value(a) < Value(b)
    ensures Value(a) == Value(b) ==> a == b
  {
    if a != [] {
      var n := |a| - 1;
      LexByLast(a, b);
      OrderIsNumeric(a[..n], b[..n]);
      assert a == a[..n] + [a[n]] && b == b[..n] + [b[n]];
    }
  }

  function SeqKey(n: uint64): (k: Bytes)
    ensures |k| == 8
  {
    Encode(n, 8)
  }

  lemma SeqKeyValue(n: uint64)
    ensures Value(SeqKey(n)) == n
  {
    Pow256Of8();
    EncodeValue(n, 8);
  }

  lemma SeqKeyInjective(m: uint64, n: uint64)
    requires SeqKey(m) == SeqKey(n)
    ensures m == n
  {
    SeqKeyValue(m);
    SeqKeyValue(n);
  }
}

/** The two receipt stores, each proved against one list of appended receipts. */
module StoreModel {
  import opened Base
  import opened ReceiptTypes
  import opened GeneratorModel
  import opened BigEndian

  datatype AppendError = DuplicateReceiptID | DuplicateSequence | KeyRejected

  // ----- What both stores mean, on the list of appended receipts -----

  function FindByID(log: seq<Receipt>, id: string): Option<Receipt> {
    if log == [] then None
    else if log[|log| - 1].id == id then Some(log[|log| - 1])
    else FindByID(log[..|log| - 1], id)
  }

  /** The most recently appended receipt of a transaction. */
  function LatestByTx(log: seq<Receipt>, tx: string): Option<Receipt> {
    if log == [] then None
    else if log[|log| - 1].transactionID == tx then Some(log[|log| - 1])
    else LatestByTx(log[..|log| - 1], tx)
  }

  function FindBySeq(log: seq<Receipt>, n: uint64): Option<Receipt> {
    if log == [] then None
    else if log[|log| - 1].seqNo == n then Some(log[|log| - 1])
    else FindBySeq(log[..|log| - 1], n)
  }

  /** Which error an append meets, if any, before the medium is touched. */
  function AppendCheck(log: seq<Receipt>, r: Receipt): Option<AppendError> {
    if FindByID(log, r.id).Some? then Some(DuplicateReceiptID)
    else if FindBySeq(log, r.seqNo).Some? then Some(DuplicateSequence)
    else None
  }

  function InRange(log: seq<Receipt>, lo: uint64, hi: uint64): seq<Receipt> {
    if log == [] then []
    else
      var r := log[|log| - 1];
      InRange(log[..|log| - 1], lo, hi) + if lo <= r.seqNo <= hi then [r] else []
  }

  ghost predicate Distinct(log: seq<Receipt>) {
    && (forall i, j | 0 <= i < j < |log| :: log[i].id != log[j].id)
    && (forall i, j | 0 <= i < j < |log| :: log[i].seqNo != log[j].seqNo)
  }

  ghost predicate Increasing(log: seq<Receipt>) {
    forall i, j | 0 <= i < j < |log| :: log[i].seqNo < log[j].seqNo
  }

  /** The error-free case is the acceptance that the generator's store promises. */
  lemma {:induction false} CheckIsAccepts(log: seq<Receipt>, r: Receipt)
    ensures AppendCheck(log, r).None? <==> Accepts(log, r)
  {
    if log != [] {
      var n := |log| - 1;
      CheckIsAccepts(log[..n], r);
      assert Accepts(log, r) <==> Accepts(log[..n], r) && log[n].id != r.id && log[n].seqNo != r.seqNo by {
        assert forall i | 0 <= i < n :: log[..n][i] == log[i];
      }
    }
  }

  lemma AppendKeepsDistinct(log: seq<Receipt>, r: Receipt)
    requires Distinct(log) && AppendCheck(log, r).None?
    ensures Distinct(log + [r])
  {
    CheckIsAccepts(log, r);
  }

  lemma FindAppend(log: seq<Receipt>, r: Receipt, id: string, tx: string, n: uint64)
    ensures FindByID(log + [r], id) == if r.id == id then Some(r) else FindByID(log, id)
    ensures LatestByTx(log + [r], tx) == if r.transactionID == tx then Some(r) else LatestByTx(log, tx)
    ensures FindBySeq(log + [r], n) == if r.seqNo == n then Some(r) else FindBySeq(log, n)
  {
    assert (log + [r])[..|log|] == log;
  }

  lemma {:induction false} FindOwn(log: seq<Receipt>, i: nat)
    requires Distinct(log) && i < |log|
    ensures FindByID(log, log[i].id) == Some(log[i])
    ensures FindBySeq(log, log[i].seqNo) == Some(log[i])
  {
    var n := |log| - 1;
    if i < n { FindOwn(log[..n], i); }
  }

  lemma {:induction false} FoundIsLogged(log: seq<Receipt>, id: string, tx: string, n: uint64)
    ensures FindByID(log, id).Some? ==> FindByID(log, id).value in log && FindByID(log, id).value.id == id
    ensures LatestByTx(log, tx).Some? ==>
              LatestByTx(log, tx).value in log && LatestByTx(log, tx).value.transactionID == tx
    ensures FindBySeq(log, n).Some? ==> FindBySeq(log, n).value in log && FindBySeq(log, n).value.seqNo == n
  {
    if log != [] { FoundIsLogged(log[..|log| - 1], id, tx, n); }
  }

  // ----- In memory -----

  /** The three maps find what the list holds. */
  ghost predicate FindsAll(log: seq<Receipt>, byID: map<string, Receipt>, byTxID: map<string, Receipt>,
                           bySeq: map<uint64, Receipt>) {
    && (forall id :: FindByID(log, id) == if id in byID then Some(byID[id]) else None)
    && (forall tx :: LatestByTx(log, tx) == if tx in byTxID then Some(byTxID[tx]) else None)
    && (forall n :: FindBySeq(log, n) == if n in bySeq then Some(bySeq[n]) else None)
  }

  lemma AllAppended(log: seq<Receipt>, byID: map<string, Receipt>, byTxID: map<string, Receipt>,
                    bySeq: map<uint64, Receipt>, r: Receipt)
    requires FindsAll(log, byID, byTxID, bySeq)
    ensures FindsAll(log + [r], byID[r.id := r], byTxID[r.transactionID := r], bySeq[r.seqNo := r])
  {
    forall id ensures FindByID(log + [r], id) == if r.id == id then Some(r) else FindByID(log, id) {
      FindAppend(log, r, id, "", 0);
    }
    forall tx ensures LatestByTx(log + [r], tx) == if r.transactionID == tx then Some(r) else LatestByTx(log, tx) {
      FindAppend(log, r, "", tx, 0);
    }
    forall n ensures FindBySeq(log + [r], n) == if r.seqNo == n then Some(r) else FindBySeq(log, n) {
      FindAppend(log, r, "", "", n);
    }
  }

  class MemoryStore {
    var receipts: seq<Receipt>
    var byID: map<string, Receipt>
    var byTxID: map<string, Receipt>
    var bySeq: map<uint64, Receipt>

    ghost predicate Valid()
      reads this
    {
      Distinct(receipts) && FindsAll(receipts, byID, byTxID, bySeq)
    }

    constructor ()
      ensures Valid() && receipts == []
    {
      receipts, byID, byTxID, bySeq := [], map[], map[], map[];
    }

    method Append(r: Receipt) returns (err: Option<AppendError>)
      requires Valid()
      modifies this
      ensures Valid()
      ensures err == AppendCheck(old(receipts), r)
      ensures receipts == if err.None? then old(receipts) + [r] else old(receipts)
    {
      if r.id in byID { return Some(DuplicateReceiptID); }
      if r.seqNo in bySeq { return Some(DuplicateSequence); }
      AppendKeepsDistinct(receipts, r);
      AllAppended(receipts, byID, byTxID, bySeq, r);
      receipts := receipts + [r];
      byID := byID[r.id := r];
      byTxID := byTxID[r.transactionID := r];
      bySeq := bySeq[r.seqNo := r];
      err := None;
    }

    method GetByID(id: string) returns (r: Option<Receipt>)
      requires Valid()
      ensures r == FindByID(receipts, id)
    {
      r := if id in byID then Some(byID[id]) else None;
    }

    method GetByTxID(tx: string) returns (r: Option<Receipt>)
      requires Valid()
      ensures r == LatestByTx(receipts, tx)
    {
      r := if tx in byTxID then Some(byTxID[tx]) else None;
    }

    method Count() returns (n: nat)
      ensures n == |receipts|
    {
      n := |receipts|;
    }

    method Last() returns (r: Option<Receipt>)
      ensures r == if receipts == [] then None else Some(receipts[|receipts| - 1])
    {
      r := if |receipts| == 0 then None else Some(receipts[|receipts| - 1]);
    }

    method ListRange(lo: uint64, hi: uint64) returns (results: seq<Receipt>)
      ensures results == InRange(receipts, lo, hi)
    {
      results := [];
      for i := 0 to |receipts|
        invariant results == InRange(receipts[..i], lo, hi)
      {
        assert receipts[..i + 1][..i] == receipts[..i];
        if lo <= receipts[i].seqNo <= hi { results := results + [receipts[i]]; }
      }
      assert receipts[..|receipts|] == receipts;
    }
  }

  // ----- Ranges in sequence order -----

  /** The stored receipts numbered lo to hi, in sequence order. */
  ghost predicate IsRange(log: seq<Receipt>, lo: uint64, hi: uint64, rs: seq<Receipt>) {
    Increasing(rs) && forall r :: r in rs <==> r in log && lo <= r.seqNo <= hi
  }

  /** A range listed up to, but not including, number `upTo`. */
  ghost predicate Collected(log: seq<Receipt>, lo: uint64, hi: uint64, upTo: int, rs: seq<Receipt>) {
    Increasing(rs) && forall r :: r in rs <==> r in log && lo <= r.seqNo <= hi && r.seqNo < upTo
  }

  /** Taking the receipt numbered n, when nothing is stored strictly between n and upTo. */
  lemma CollectStep(log: seq<Receipt>, lo: uint64, hi: uint64, n: uint64, upTo: int, rs: seq<Receipt>, x: Receipt)
    requires Distinct(log) && Collected(log, lo, hi, n, rs) && x in log && x.seqNo == n && lo <= n <= hi && n < upTo
    requires forall r <- log :: n < r.seqNo ==> upTo <= r.seqNo
    ensures Collected(log, lo, hi, upTo, rs + [x])
  {
    forall i | 0 <= i < |rs| ensures rs[i].seqNo < n { assert rs[i] in rs; }
    forall r | r in log && r.seqNo == n ensures r == x {
      var i :| 0 <= i < |log| && log[i] == r;
      var j :| 0 <= j < |log| && log[j] == x;
    }
  }

  lemma {:induction false} IncreasingUnique(a: seq<Receipt>, b: seq<Receipt>)
    requires Increasing(a) && Increasing(b) && forall r :: r in a <==> r in b
    ensures a == b
  {
    BothEmpty(a, b);
    if a != [] && b != [] {
      var m, n := |a| - 1, |b| - 1;
      assert a[m] in b && b[n] in a;
      assert a[m] == b[n];
      WithoutLast(a);
      WithoutLast(b);
      forall r ensures r in a[..m] <==> r in b[..n] { assert r in a <==> r in b; }
      IncreasingUnique(a[..m], b[..n]);
      assert a == a[..m] + [a[m]] && b == b[..n] + [b[n]];
    }
  }

  lemma BothEmpty(a: seq<Receipt>, b: seq<Receipt>)
    requires forall r :: r in a <==> r in b
    ensures a == [] <==> b == []
  {
    if a != [] { assert a[0] in a; }
    if b != [] { assert b[0] in b; }
  }

  lemma WithoutLast(a: seq<Receipt>)
    requires Increasing(a) && a != []
    ensures Increasing(a[..|a| - 1])
    ensures forall r :: r in a[..|a| - 1] <==> r in a && r != a[|a| - 1]
  {
  }

  lemma {:induction false} InRangeMembers(log: seq<Receipt>, lo: uint64, hi: uint64, r: Receipt)
    ensures r in InRange(log, lo, hi) <==> r in log && lo <= r.seqNo <= hi
  {
    if log != [] {
      InRangeMembers(log[..|log| - 1], lo, hi, r);
      assert log == log[..|log| - 1] + [log[|log| - 1]];
    }
  }

  lemma {:induction false} InRangeAscends(log: seq<Receipt>, lo: uint64, hi: uint64)
    requires Increasing(log)
    ensures Increasing(InRange(log, lo, hi))
  {
    if log != [] {
      var n := |log| - 1;
      var a := InRange(log[..n], lo, hi);
      InRangeAscends(log[..n], lo, hi);
      forall i | 0 <= i < |a| ensures a[i].seqNo < log[n].seqNo {
        InRangeMembers(log[..n], lo, hi, a[i]);
        var j :| 0 <= j < n && log[..n][j] == a[i];
      }
    }
  }

  /** When sequence numbers increase, the two stores list the same range. */
  lemma RangesAgree(log: seq<Receipt>, lo: uint64, hi: uint64, rs: seq<Receipt>)
    requires Increasing(log)
    ensures IsRange(log, lo, hi, rs) <==> rs == InRange(log, lo, hi)
  {
    InRangeAscends(log, lo, hi);
    forall r { InRangeMembers(log, lo, hi, r); }
    if IsRange(log, lo, hi, rs) { IncreasingUnique(rs, InRange(log, lo, hi)); }
  }

  // ----- In Bolt -----

  const MAX_KEY_SIZE := 32768

  /** Bolt refuses empty and oversized keys. */
  predicate KeyOk(k: string) { 0 < |k| <= MAX_KEY_SIZE }

  predicate After(x: Bytes, from: Bytes, strict: bool) {
    LexLess(from, x) || (!strict && x == from)
  }

  /** A cursor's Seek (not strict) or Next (strict): the least key in byte order after `from`. */
  method Cursor(keys: set<Bytes>, from: Bytes, strict: bool) returns (k: Option<Bytes>)
    requires |from| == 8 && forall x <- keys :: |x| == 8
    ensures k.None? ==> forall x <- keys :: !After(x, from, strict)
    ensures k.Some? ==> k.value in keys && After(k.value, from, strict)
    ensures k.Some? ==> forall x <- keys :: After(x, from, strict) ==> !LexLess(x, k.value)
  {
    k := None;
    var rest := keys;
    while rest != {}
      invariant rest <= keys
      invariant k.None? ==> forall x <- keys - rest :: !After(x, from, strict)
      invariant k.Some? ==> k.value in keys && After(k.value, from, strict)
      invariant k.Some? ==> forall x <- keys - rest :: After(x, from, strict) ==> !LexLess(x, k.value)
    {
      var x :| x in rest;
      if After(x, from, strict) && (k.None? || LexLess(x, k.value)) {
        forall y <- keys ensures k.Some? && !LexLess(y, k.value) ==> !LexLess(y, x) {
          if k.Some? { OrderIsNumeric(y, k.value); OrderIsNumeric(x, k.value); OrderIsNumeric(y, x); }
        }
        OrderIsNumeric(x, x);
        k := Some(x);
      }
      rest := rest - {x};
    }
  }

  /** Lookups by ID and by transaction find what the list holds. */
  ghost predicate FindsData(log: seq<Receipt>, receipts: map<string, Receipt>, byTx: map<string, string>) {
    && |receipts| == |log|
    && (forall id :: FindByID(log, id) == if id in receipts then Some(receipts[id]) else None)
    && (forall tx :: match LatestByTx(log, tx)
          case None => tx !in byTx
          case Some(r) => tx in byTx && byTx[tx] == r.id)
  }

  /** The index maps exactly the big-endian sequence numbers of the stored receipts to their IDs. */
  ghost predicate FindsSequence(log: seq<Receipt>, seqIndex: map<Bytes, string>) {
    && (forall k <- seqIndex :: |k| == 8)
    && (forall n: uint64 :: match FindBySeq(log, n)
          case None => SeqKey(n) !in seqIndex
          case Some(r) => SeqKey(n) in seqIndex && seqIndex[SeqKey(n)] == r.id)
  }

  lemma DataAppended(log: seq<Receipt>, receipts: map<string, Receipt>, byTx: map<string, string>, r: Receipt)
    requires FindsData(log, receipts, byTx) && r.id !in receipts
    ensures FindsData(log + [r], receipts[r.id := r], byTx[r.transactionID := r.id])
  {
    forall id ensures FindByID(log + [r], id) == if r.id == id then Some(r) else FindByID(log, id) {
      FindAppend(log, r, id, "", 0);
    }
    forall tx ensures LatestByTx(log + [r], tx) == if r.transactionID == tx then Some(r) else LatestByTx(log, tx) {
      FindAppend(log, r, "", tx, 0);
    }
  }

  lemma SequenceAppended(log: seq<Receipt>, seqIndex: map<Bytes, string>, r: Receipt)
    requires FindsSequence(log, seqIndex)
    ensures FindsSequence(log + [r], seqIndex[SeqKey(r.seqNo) := r.id])
  {
    forall n: uint64 ensures FindBySeq(log + [r], n) == if r.seqNo == n then Some(r) else FindBySeq(log, n) {
      FindAppend(log, r, "", "", n);
    }
    forall n: uint64 | SeqKey(n) == SeqKey(r.seqNo) ensures n == r.seqNo { SeqKeyInjective(n, r.seqNo); }
  }

  /** Buckets as byte-ordered maps; `log` is the list of receipts the store stands for. */
  class BoltStore {
    ghost var log: seq<Receipt>
    var receipts: map<string, Receipt>
    var byTx: map<string, string>
    var seqIndex: map<Bytes, string>

    ghost predicate DataOk()
      reads this
    {
      Distinct(log) && FindsData(log, receipts, byTx)
    }

    ghost predicate IndexOk()
      reads this
    {
      FindsSequence(log, seqIndex)
    }

    ghost predicate Valid()
      reads this
    {
      DataOk() && IndexOk()
    }

    constructor ()
      ensures Valid() && log == []
    {
      log, receipts, byTx, seqIndex := [], map[], map[], map[];
    }

    /** One Bolt transaction: a failing Put rolls everything back. */
    method Append(r: Receipt) returns (err: Option<AppendError>)
      requires Valid()
      modifies this
      ensures Valid()
      ensures err == if AppendCheck(old(log), r).Some? then AppendCheck(old(log), r)
                     else if KeyOk(r.id) && KeyOk(r.transactionID) then None else Some(KeyRejected)
      ensures log == if err.None? then old(log) + [r] else old(log)
    {
      if r.id in receipts { return Some(DuplicateReceiptID); }
      var key := SeqKey(r.seqNo);
      if key in seqIndex { return Some(DuplicateSequence); }
      if !KeyOk(r.id) || !KeyOk(r.transactionID) { return Some(KeyRejected); }
      AppendKeepsDistinct(log, r);
      DataAppended(log, receipts, byTx, r);
      SequenceAppended(log, seqIndex, r);
      receipts := receipts[r.id := r];
      byTx := byTx[r.transactionID := r.id];
      seqIndex := seqIndex[key := r.id];
      log := log + [r];
      err := None;
    }

    method GetByID(id: string) returns (r: Option<Receipt>)
      requires Valid()
      ensures r == FindByID(log, id)
    {
      r := if id in receipts then Some(receipts[id]) else None;
    }

    method GetByTxID(tx: string) returns (r: Option<Receipt>)
      requires Valid()
      ensures r == LatestByTx(log, tx)
    {
      if tx !in byTx { return None; }
      LatestIsFound(log, tx);
      r := if byTx[tx] in receipts then Some(receipts[byTx[tx]]) else None;
    }

    method Count() returns (n: nat)
      requires Valid()
      ensures n == |log|
    {
      n := |receipts|;
    }

    /** The receipt under the greatest key. */
    method Last() returns (r: Option<Receipt>)
      requires Valid()
      ensures r.None? <==> log == []
      ensures r.Some? ==> r.value in log && forall x <- log :: x.seqNo <= r.value.seqNo
    {
      var best: Option<Bytes> := None;
      var rest := seqIndex.Keys;
      while rest != {}
        invariant rest <= seqIndex.Keys
        invariant best.None? ==> rest == seqIndex.Keys
        invariant best.Some? ==>
                    best.value in seqIndex && forall x <- seqIndex.Keys - rest :: Value(x) <= Value(best.value)
      {
        var x :| x in rest;
        if best.Some? { OrderIsNumeric(best.value, x); }
        if best.None? || LexLess(best.value, x) { best := Some(x); }
        rest := rest - {x};
      }
      forall i | 0 <= i < |log| { LoggedIsIndexed(i); }
      if best.None? { return None; }
      KeyFindsReceipt(best.value);
      r := Some(receipts[seqIndex[best.value]]);
    }

    /** A stored receipt is reachable through the index key of its sequence number. */
    lemma LoggedIsIndexed(i: nat)
      requires Valid() && i < |log|
      ensures SeqKey(log[i].seqNo) in seqIndex && Value(SeqKey(log[i].seqNo)) == log[i].seqNo
    {
      FindOwn(log, i);
      SeqKeyValue(log[i].seqNo);
    }

    /** An index key leads to the stored receipt with that number. */
    lemma KeyFindsReceipt(k: Bytes)
      requires Valid() && k in seqIndex
      ensures seqIndex[k] in receipts && receipts[seqIndex[k]] in log && receipts[seqIndex[k]].seqNo == Value(k)
    {
      KeyInRange(k);
      var n: uint64 := Value(k);
      ValueEncode(k);
      assert SeqKey(n) == k;
      FoundIsLogged(log, "", "", n);
      var r := FindBySeq(log, n).value;
      var i :| 0 <= i < |log| && log[i] == r;
      FindOwn(log, i);
    }

    /** Between `from` and the key a cursor moves to, no receipt is stored. */
    lemma ReachedFrom(from: Bytes, strict: bool, k: Option<Bytes>)
      requires Valid() && |from| == 8
      requires k.None? ==> forall x <- seqIndex.Keys :: !After(x, from, strict)
      requires k.Some? ==> k.value in seqIndex && After(k.value, from, strict)
      requires k.Some? ==> forall x <- seqIndex.Keys :: After(x, from, strict) ==> !LexLess(x, k.value)
      ensures k.Some? ==> Value(from) <= Value(k.value) && (strict ==> Value(from) < Value(k.value))
      ensures forall r <- log :: (if strict then Value(from) < r.seqNo else Value(from) <= r.seqNo) ==>
                k.Some? && Value(k.value) <= r.seqNo
    {
      if k.Some? { OrderIsNumeric(from, k.value); }
      forall r | r in log && (if strict then Value(from) < r.seqNo else Value(from) <= r.seqNo)
        ensures k.Some? && Value(k.value) <= r.seqNo
      {
        var i :| 0 <= i < |log| && log[i] == r;
        LoggedIsIndexed(i);
        var x := SeqKey(r.seqNo);
        OrderIsNumeric(from, x);
        assert After(x, from, strict);
        OrderIsNumeric(x, k.value);
      }
    }

    method ListRange(lo: uint64, hi: uint64) returns (results: seq<Receipt>)
      requires Valid()
      ensures IsRange(log, lo, hi, results)
    {
      results := [];
      SeqKeyValue(lo);
      var k := Cursor(seqIndex.Keys, SeqKey(lo), false);
      ReachedFrom(SeqKey(lo), false, k);
      while k.Some?
        invariant k.Some? ==> k.value in seqIndex && lo <= Value(k.value)
        invariant Collected(log, lo, hi, UpTo(k), results)
        decreases if k.Some? then TWO_64 - Value(k.value) else 0
      {
        KeyInRange(k.value);
        KeyFindsReceipt(k.value);
        var n := Value(k.value);
        if n > hi { return; }
        var r := receipts[seqIndex[k.value]];
        var next := Cursor(seqIndex.Keys, k.value, true);
        ReachedFrom(k.value, true, next);
        CollectStep(log, lo, hi, n, UpTo(next), results, r);
        results := results + [r];
        k := next;
      }
    }

    /**
     Rebuilding an empty index from the stored receipts.  It reports a duplicate exactly when two stored
     receipts share a number, and then the transaction is rolled back.
     */
    method BackfillSeqBucket() returns (err: Option<AppendError>)
      modifies this`seqIndex
      ensures old(seqIndex) != map[] ==> err.None? && seqIndex == old(seqIndex)
      ensures err.Some? ==> seqIndex == old(seqIndex)
      ensures old(seqIndex) == map[] ==>
                (err.None? <==> forall a, b | a in receipts && b in receipts && a != b ::
                                  receipts[a].seqNo != receipts[b].seqNo)
      ensures old(seqIndex) == map[] && err.None? ==> IndexOf(receipts, seqIndex)
    {
      if |seqIndex| > 0 { return None; }
      assert seqIndex == map[];
      var index: map<Bytes, string> := map[];
      var rest := receipts.Keys;
      while rest != {}
        invariant rest <= receipts.Keys
        invariant forall a, b | a in receipts.Keys - rest && b in receipts.Keys - rest && a != b ::
                    receipts[a].seqNo != receipts[b].seqNo
        invariant forall id <- receipts.Keys - rest ::
                    SeqKey(receipts[id].seqNo) in index && index[SeqKey(receipts[id].seqNo)] == id
        invariant forall k <- index :: index[k] in receipts.Keys - rest && k == SeqKey(receipts[index[k]].seqNo)
      {
        var id :| id in rest;
        var key := SeqKey(receipts[id].seqNo);
        if key in index {
          SeqKeyValue(receipts[id].seqNo);
          SeqKeyValue(receipts[index[key]].seqNo);
          return Some(DuplicateSequence);
        }
        index := index[key := id];
        rest := rest - {id};
      }
      seqIndex := index;
      err := None;
    }

    /** An index rebuilt from the data buckets is the index that the appends would have kept. */
    lemma RebuiltIndexIsValid()
      requires DataOk() && IndexOf(receipts, seqIndex)
      ensures Valid()
    {
      forall n: uint64
        ensures match FindBySeq(log, n)
                case None => SeqKey(n) !in seqIndex
                case Some(r) => SeqKey(n) in seqIndex && seqIndex[SeqKey(n)] == r.id
      {
        RebuiltAt(n);
      }
    }

    lemma RebuiltAt(n: uint64)
      requires DataOk() && IndexOf(receipts, seqIndex)
      ensures match FindBySeq(log, n)
              case None => SeqKey(n) !in seqIndex
              case Some(r) => SeqKey(n) in seqIndex && seqIndex[SeqKey(n)] == r.id
    {
      FoundIsLogged(log, "", "", n);
      if FindBySeq(log, n).Some? {
        var i :| 0 <= i < |log| && log[i] == FindBySeq(log, n).value;
        FindOwn(log, i);
      } else if SeqKey(n) in seqIndex {
        var id := seqIndex[SeqKey(n)];
        SeqKeyValue(n);
        SeqKeyValue(receipts[id].seqNo);
        FoundIsLogged(log, id, "", n);
        var i :| 0 <= i < |log| && log[i] == receipts[id];
        FindOwn(log, i);
      }
    }
  }

  /** index maps the key of every stored receipt's number to its ID, and nothing else. */
  ghost predicate IndexOf(receipts: map<string, Receipt>, index: map<Bytes, string>) {
    && (forall id <- receipts :: SeqKey(receipts[id].seqNo) in index && index[SeqKey(receipts[id].seqNo)] == id)
    && (forall k <- index :: index[k] in receipts && k == SeqKey(receipts[index[k]].seqNo))
  }

  /** The first number a cursor has not passed. */
  ghost function UpTo(k: Option<Bytes>): int {
    if k.Some? then Value(k.value) else TWO_64
  }

  /** When sequence numbers increase, the greatest key is the last append, so both stores agree on Last. */
  lemma GreatestIsLast(log: seq<Receipt>, r: Receipt)
    requires Increasing(log) && log != []
    ensures r == log[|log| - 1] <==> r in log && forall x <- log :: x.seqNo <= r.seqNo
  {
    var n := |log| - 1;
    if r in log && forall x <- log :: x.seqNo <= r.seqNo {
      var i :| 0 <= i < |log| && log[i] == r;
      assert log[n] in log;
    }
  }

  lemma LatestIsFound(log: seq<Receipt>, tx: string)
    requires Distinct(log) && LatestByTx(log, tx).Some?
    ensures FindByID(log, LatestByTx(log, tx).value.id) == LatestByTx(log, tx)
  {
    FoundIsLogged(log, "", tx, 0);
    var i :| 0 <= i < |log| && log[i] == LatestByTx(log, tx).value;
    FindOwn(log, i);
  }

  lemma {:induction false} ValueBound(k: Bytes)
    ensures Value(k) < Pow256(|k|)
  {
    if k != [] { ValueBound(k[..|k| - 1]); }
  }

  lemma KeyInRange(k: Bytes)
    requires |k| == 8
    ensures Value(k) < TWO_64
  {
    ValueBound(k);
    Pow256Of8();
  }
}
