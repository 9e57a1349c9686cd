/** A validator that is fed one store's receipts in order. */
module Feed {
  import opened Base
  import opened ReceiptTypes
  import opened Validation
  import opened ChainRuns

  /** Clock readings of one ValidateReceipt call: for the age, and for the detector's check and cleanup. */
  datatype Reading = Reading(now: int, checkTime: int, later: int)

  /** The receipts that ValidateReceipt hands to its detector: authentic and young enough. */
  ghost predicate Reaches(c: Crypto, t: Trust, maxAge: int64, r: Receipt, at: Reading) {
    ReceiptOk(c, t, r) && Replay.Sub(at.now, r.timestamp) <= maxAge
  }

  /** The detector of a validator that has been given the first n receipts of the store. */
  ghost function DetectorAfter(c: Crypto, t: Trust, maxAge: int64, zeroTime: int, store: seq<Receipt>,
                               clock: seq<Reading>, n: nat): Replay.Detector
    requires n <= |store| == |clock|
  {
    if n == 0 then Replay.New(maxAge, zeroTime)
    else
      var d, r, at := DetectorAfter(c, t, maxAge, zeroTime, store, clock, n - 1), store[n - 1], clock[n - 1];
      if Reaches(c, t, maxAge, r, at) then Replay.Checked(d, ReplayMessage(r), at.checkTime, at.later) else d
  }

  /** The checks that reached the detector among the first n receipts. */
  ghost function Checks(c: Crypto, t: Trust, maxAge: int64, store: seq<Receipt>, clock: seq<Reading>, n: nat)
    : seq<Replay.Call>
    requires n <= |store| == |clock|
  {
    if n == 0 then []
    else
      var calls, r, at := Checks(c, t, maxAge, store, clock, n - 1), store[n - 1], clock[n - 1];
      if Reaches(c, t, maxAge, r, at) then calls + [Replay.DoCheck(ReplayMessage(r), at.checkTime, at.later)] else calls
  }

  lemma {:induction false} ChecksMakeTheDetector(c: Crypto, t: Trust, maxAge: int64, zeroTime: int, store: seq<Receipt>,
                                                 clock: seq<Reading>, n: nat)
    requires n <= |store| == |clock|
    ensures DetectorAfter(c, t, maxAge, zeroTime, store, clock, n)
         == Replay.After(Replay.New(maxAge, zeroTime), Checks(c, t, maxAge, store, clock, n))
  {
    if n > 0 {
      ChecksMakeTheDetector(c, t, maxAge, zeroTime, store, clock, n - 1);
      var calls, r, at := Checks(c, t, maxAge, store, clock, n - 1), store[n - 1], clock[n - 1];
      CheckAppended(Replay.New(maxAge, zeroTime), calls, ReplayMessage(r), at.checkTime, at.later);
    }
  }

  lemma CheckAppended(d: Replay.Detector, calls: seq<Replay.Call>, m: Replay.Message, now: int, later: int)
    ensures Replay.After(d, calls + [Replay.DoCheck(m, now, later)])
         == Replay.Checked(Replay.After(d, calls), m, now, later)
  {
    Replay.AfterSnoc(d, calls + [Replay.DoCheck(m, now, later)], |calls|);
    assert (calls + [Replay.DoCheck(m, now, later)])[..|calls|] == calls;
    assert (calls + [Replay.DoCheck(m, now, later)])[..|calls| + 1] == calls + [Replay.DoCheck(m, now, later)];
  }

  /** The checked numbers are below any bound on the numbers of the receipts. */
  lemma {:induction false} ChecksBelow(c: Crypto, t: Trust, maxAge: int64, store: seq<Receipt>, clock: seq<Reading>,
                                       n: nat, bound: int)
    requires n <= |store| == |clock| && forall k | 0 <= k < n :: store[k].seqNo < bound
    ensures AllBelow(Checks(c, t, maxAge, store, clock, n), bound)
  {
    if n > 0 { ChecksBelow(c, t, maxAge, store, clock, n - 1, bound); }
  }

  predicate AllBelow(calls: seq<Replay.Call>, bound: int) {
    forall i | 0 <= i < |calls| :: calls[i].DoCheck? && calls[i].m.seqNo < bound
  }

  /**
   Whatever issues, failures, rotations and restarts produced the store: a validator that is given its
   receipts in order accepts each one that is inside the maximum age when its turn comes, whether or not
   earlier ones had become too old.
   */
  lemma OrderlyFeedIsAccepted(c: Crypto, t: Trust, sk: Bytes, ops: seq<Op>, maxAge: int64, zeroTime: int,
                              clock: seq<Reading>, j: nat)
    requires RunOk(c, t, sk, ops)
    requires var store := Run(c, t, sk, ops).store; |clock| == |store| < TWO_64 && j < |store|
    requires var r := Run(c, t, sk, ops).store[j];
             && Replay.Sub(clock[j].now, r.timestamp) <= maxAge
             && Replay.InTime(Replay.New(maxAge, zeroTime), ReplayMessage(r), clock[j].checkTime)
    ensures var store := Run(c, t, sk, ops).store;
            && Reaches(c, t, maxAge, store[j], clock[j])
            && Replay.Verdict(DetectorAfter(c, t, maxAge, zeroTime, store, clock, j), ReplayMessage(store[j]),
                              clock[j].checkTime).None?
  {
    var store := Run(c, t, sk, ops).store;
    RunKeeps(c, t, sk, ops);
    var calls := Checks(c, t, maxAge, store, clock, j);
    var call := Replay.DoCheck(ReplayMessage(store[j]), clock[j].checkTime, clock[j].later);
    forall k | 0 <= k < j
      ensures store[k].seqNo < store[j].seqNo
    {
      CountsFromOne(store, k);
      CountsFromOne(store, j);
    }
    ChecksBelow(c, t, maxAge, store, clock, j, store[j].seqNo);
    ChecksMakeTheDetector(c, t, maxAge, zeroTime, store, clock, j);
    FreshCheck(maxAge, zeroTime, calls, call);
  }

  lemma FreshCheck(maxAge: int64, zeroTime: int, calls: seq<Replay.Call>, call: Replay.Call)
    requires call.DoCheck? && Replay.InTime(Replay.New(maxAge, zeroTime), call.m, call.now)
    requires AllBelow(calls, call.m.seqNo)
    ensures Replay.Verdict(Replay.After(Replay.New(maxAge, zeroTime), calls), call.m, call.now).None?
  {
    Replay.FreshIsAccepted(maxAge, zeroTime, calls + [call], |calls|);
    assert (calls + [call])[..|calls|] == calls;
  }
}
