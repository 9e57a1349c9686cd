/**
 The replay detector: a pruned index over an unbounded history of accepted messages.  Times are
 nanoseconds on one non-decreasing clock; differences are Go durations, which saturate.
 */
module ReplayModel {
  import opened Base

  const MAX_DURATION: int := 0x7fff_ffff_ffff_ffff
  const MIN_DURATION: int := -0x8000_0000_0000_0000
  const SECOND: int := 1_000_000_000
  const DEFAULT_WINDOW: int := 30 * SECOND
  const MAX_CLOCK_SKEW: int := 5 * SECOND

  /** Go's Time.Sub. */
  function Sub(a: int, b: int): (d: int64)
    ensures a - b <= MAX_DURATION ==> d >= a - b
    ensures a - b >= MIN_DURATION ==> d <= a - b
  {
    if a - b > MAX_DURATION then MAX_DURATION else if a - b < MIN_DURATION then MIN_DURATION else a - b
  }

  /** Go's negation of a duration, which leaves the smallest one unchanged. */
  function Negate(d: int64): int64 {
    if d == MIN_DURATION then MIN_DURATION else -d
  }

  datatype Detector = Detector(
    window: int64,
    seen: map<string, map<uint64, int>>,
    lastSeqNo: map<string, uint64>,
    lastCleanup: int)

  datatype Message = Message(fp: string, seqNo: uint64, ts: int)

  datatype CheckError = FutureTimestamp | Expired | Replayed | OutOfOrder

  /** The verdict on a message at time `now`. */
  function Verdict(d: Detector, m: Message, now: int): Option<CheckError> {
    if m.ts > now + MAX_CLOCK_SKEW then Some(FutureTimestamp)
    else if Sub(now, m.ts) > d.window then Some(Expired)
    else if m.fp in d.seen && m.seqNo in d.seen[m.fp] then Some(Replayed)
    else if m.fp in d.lastSeqNo && m.seqNo <= d.lastSeqNo[m.fp] then Some(OutOfOrder)
    else None
  }

  function Entries(seen: map<string, map<uint64, int>>, fp: string): map<uint64, int> {
    if fp in seen then seen[fp] else map[]
  }

  function Recorded(d: Detector, m: Message): Detector {
    d.(seen := d.seen[m.fp := Entries(d.seen, m.fp)[m.seqNo := m.ts]],
       lastSeqNo := d.lastSeqNo[m.fp := m.seqNo])
  }

  /** Entries not older than the cutoff. */
  function Kept(es: map<uint64, int>, cutoff: int): map<uint64, int> {
    map n | n in es && es[n] >= cutoff :: es[n]
  }

  /** Expired entries go; a fingerprint with none left is forgotten altogether. */
  function Cleaned(d: Detector, now: int): Detector {
    var cutoff := now + Negate(d.window);
    d.(seen := map fp | fp in d.seen && Kept(d.seen[fp], cutoff) != map[] :: Kept(d.seen[fp], cutoff),
       lastSeqNo := map fp | fp in d.lastSeqNo && (fp in d.seen ==> Kept(d.seen[fp], cutoff) != map[]) ::
                      d.lastSeqNo[fp])
  }

  /** One Check that starts at `now`; a cleanup it triggers reads the clock again, at `later`. */
  function Checked(d: Detector, m: Message, now: int, later: int): Detector {
    if Verdict(d, m, now).Some? then d
    else
      var r := Recorded(d, m);
      if Sub(now, d.lastCleanup) >= d.window then Cleaned(r, later).(lastCleanup := now) else r
  }

  /** The maps in the middle of a cleanup, when the fingerprints in `rest` have not been visited yet. */
  ghost function SeenDuring(d: Detector, cutoff: int, rest: set<string>): map<string, map<uint64, int>> {
    map fp | fp in d.seen && (fp in rest || Kept(d.seen[fp], cutoff) != map[]) ::
      if fp in rest then d.seen[fp] else Kept(d.seen[fp], cutoff)
  }

  ghost function LastDuring(d: Detector, cutoff: int, rest: set<string>): map<string, uint64> {
    map fp | fp in d.lastSeqNo && (fp in d.seen ==> fp in rest || Kept(d.seen[fp], cutoff) != map[]) :: d.lastSeqNo[fp]
  }

  lemma DuringStep(d: Detector, cutoff: int, rest: set<string>, fp: string)
    requires fp in rest && fp in d.seen
    ensures fp in SeenDuring(d, cutoff, rest) && SeenDuring(d, cutoff, rest)[fp] == d.seen[fp]
    ensures var kept := Kept(d.seen[fp], cutoff);
            && SeenDuring(d, cutoff, rest - {fp}) ==
               (if kept == map[] then SeenDuring(d, cutoff, rest) - {fp} else SeenDuring(d, cutoff, rest)[fp := kept])
            && LastDuring(d, cutoff, rest - {fp}) ==
               (if kept == map[] then LastDuring(d, cutoff, rest) - {fp} else LastDuring(d, cutoff, rest))
  {
  }

  lemma DuringStarts(d: Detector, cutoff: int)
    ensures SeenDuring(d, cutoff, d.seen.Keys) == d.seen && LastDuring(d, cutoff, d.seen.Keys) == d.lastSeqNo
  {
  }

  lemma DuringEnds(d: Detector, now: int)
    ensures var cutoff := now + Negate(d.window);
            && SeenDuring(d, cutoff, {}) == Cleaned(d, now).seen
               && LastDuring(d, cutoff, {}) == Cleaned(d, now).lastSeqNo
  {
  }

  class ReplayDetector {
    const window: int64
    var seen: map<string, map<uint64, int>>
    var lastSeqNo: map<string, uint64>
    var lastCleanup: int

    function State(): Detector
      reads this
    {
      Detector(window, seen, lastSeqNo, lastCleanup)
    }

    /** Go's zero time lies before every clock reading; `zeroTime` stands for it. */
    constructor (window: int64, zeroTime: int)
      ensures State() == Detector(if window == 0 then DEFAULT_WINDOW else window, map[], map[], zeroTime)
    {
      this.window := if window == 0 then DEFAULT_WINDOW else window;
      seen, lastSeqNo, lastCleanup := map[], map[], zeroTime;
    }

    method Check(m: Message, now: int, later: int) returns (err: Option<CheckError>)
      modifies this
      ensures err == Verdict(old(State()), m, now)
      ensures State() == Checked(old(State()), m, now, later)
    {
      if m.ts > now + MAX_CLOCK_SKEW { return Some(FutureTimestamp); }
      if Sub(now, m.ts) > window { return Some(Expired); }
      if m.fp in seen {
        if m.seqNo in seen[m.fp] { return Some(Replayed); }
      }
      if m.fp in lastSeqNo {
        if m.seqNo <= lastSeqNo[m.fp] { return Some(OutOfOrder); }
      }
      var entries: map<uint64, int> := if m.fp in seen then seen[m.fp] else map[];
      seen := seen[m.fp := entries[m.seqNo := m.ts]];
      lastSeqNo := lastSeqNo[m.fp := m.seqNo];
      assert State() == Recorded(old(State()), m);
      if Sub(now, lastCleanup) >= window {
        CleanupLocked(later);
        lastCleanup := now;
      }
      err := None;
    }

    method Cleanup(now: int)
      modifies this
      ensures State() == Cleaned(old(State()), now)
    {
      CleanupLocked(now);
    }

    /** The nested deletion loops. */
    method CleanupLocked(now: int)
      modifies this
      ensures State() == Cleaned(old(State()), now)
    {
      ghost var d := State();
      var cutoff := now + Negate(window);
      var rest := seen.Keys;
      DuringStarts(d, cutoff);
      while rest != {}
        invariant rest <= d.seen.Keys && lastCleanup == d.lastCleanup
        invariant seen == SeenDuring(d, cutoff, rest) && lastSeqNo == LastDuring(d, cutoff, rest)
      {
        var fp :| fp in rest;
        DuringStep(d, cutoff, rest, fp);
        Visit(fp, cutoff);
        rest := rest - {fp};
      }
      DuringEnds(d, now);
    }

    method Visit(fp: string, cutoff: int)
      requires fp in seen
      modifies this`seen, this`lastSeqNo
      ensures var kept := Kept(old(seen)[fp], cutoff);
              && seen == (if kept == map[] then old(seen) - {fp} else old(seen)[fp := kept])
              && lastSeqNo == (if kept == map[] then old(lastSeqNo) - {fp} else old(lastSeqNo))
    {
      var kept := DropExpired(seen[fp], cutoff);
      seen := seen[fp := kept];
      if kept == map[] {
        seen := seen - {fp};
        lastSeqNo := lastSeqNo - {fp};
      }
    }

    static method DropExpired(es: map<uint64, int>, cutoff: int) returns (kept: map<uint64, int>)
      ensures kept == Kept(es, cutoff)
    {
      kept := es;
      var rest := es.Keys;
      while rest != {}
        invariant rest <= es.Keys
        invariant kept == map n | n in es && (n in rest || es[n] >= cutoff) :: es[n]
      {
        var n :| n in rest;
        if es[n] < cutoff { kept := kept - {n}; }
        rest := rest - {n};
      }
    }
  }

  // ----- Runs -----

  /** A call with its clock readings. Explicit Cleanup calls are part of a run too. */
  datatype Call = DoCheck(m: Message, now: int, later: int) | DoCleanup(now: int)

  function Begins(c: Call): int { c.now }
  function Ends(c: Call): int { if c.DoCheck? then c.later else c.now }

  /** The clock never goes back, within a call or from one call to the next. */
  ghost predicate ClockOk(calls: seq<Call>) {
    && (forall i | 0 <= i < |calls| :: Begins(calls[i]) <= Ends(calls[i]))
    && (forall i, j | 0 <= i < j < |calls| :: Ends(calls[i]) <= Begins(calls[j]))
  }

  function Next(d: Detector, c: Call): Detector {
    match c
    case DoCheck(m, now, later) => Checked(d, m, now, later)
    case DoCleanup(now) => Cleaned(d, now)
  }

  function After(d: Detector, calls: seq<Call>): Detector {
    if calls == [] then d else Next(After(d, calls[..|calls| - 1]), calls[|calls| - 1])
  }

  function New(window: int64, zeroTime: int): Detector {
    Detector(if window == 0 then DEFAULT_WINDOW else window, map[], map[], zeroTime)
  }

  /** Call i is a check whose message the detector accepted. */
  predicate Accepted(d: Detector, calls: seq<Call>, i: nat) {
    i < |calls| && calls[i].DoCheck? && Verdict(After(d, calls[..i]), calls[i].m, calls[i].now).None?
  }

  // ----- What pruning keeps -----

  /** The two maps know the same fingerprints, none is kept without entries, and no entry exceeds the last number. */
  ghost predicate Coherent(d: Detector) {
    && d.seen.Keys == d.lastSeqNo.Keys
    && forall fp <- d.seen :: d.seen[fp] != map[] && forall n <- d.seen[fp] :: n <= d.lastSeqNo[fp]
  }

  lemma RecordedCoherent(d: Detector, m: Message, now: int)
    requires Coherent(d) && Verdict(d, m, now).None?
    ensures Coherent(Recorded(d, m))
  {
    var r := Recorded(d, m);
    assert m.seqNo in r.seen[m.fp];
    forall fp <- r.seen
      ensures r.seen[fp] != map[] && forall n <- r.seen[fp] :: n <= r.lastSeqNo[fp]
    {
      if fp != m.fp { assert fp in d.seen; }
    }
  }

  lemma CleanedCoherent(d: Detector, now: int)
    requires Coherent(d)
    ensures Coherent(Cleaned(d, now))
  {
    var r := Cleaned(d, now);
    forall fp <- r.seen
      ensures r.seen[fp] != map[] && forall n <- r.seen[fp] :: n <= r.lastSeqNo[fp]
    {
      assert fp in d.seen;
    }
    assert r.seen.Keys == r.lastSeqNo.Keys;
  }

  lemma NextCoherent(d: Detector, c: Call)
    requires Coherent(d)
    ensures Coherent(Next(d, c)) && Next(d, c).window == d.window
  {
    match c
    case DoCleanup(now) => CleanedCoherent(d, now);
    case DoCheck(m, now, later) =>
      if Verdict(d, m, now).None? {
        RecordedCoherent(d, m, now);
        CleanedCoherent(Recorded(d, m), later);
      }
  }

  lemma {:induction false} AlwaysCoherent(window: int64, zeroTime: int, calls: seq<Call>)
    ensures Coherent(After(New(window, zeroTime), calls))
    ensures After(New(window, zeroTime), calls).window == New(window, zeroTime).window
  {
    if calls != [] {
      AlwaysCoherent(window, zeroTime, calls[..|calls| - 1]);
      NextCoherent(After(New(window, zeroTime), calls[..|calls| - 1]), calls[|calls| - 1]);
    }
  }

  /** An accepted message is still recorded, or was already too old at some clock reading up to t. */
  predicate Tracked(d: Detector, m: Message, t: int) {
    (m.fp in d.seen && m.seqNo in d.seen[m.fp] && d.seen[m.fp][m.seqNo] == m.ts) || m.ts < t + Negate(d.window)
  }

  lemma CleanedTracks(d: Detector, m: Message, t: int, now: int)
    requires Tracked(d, m, t) && t <= now
    ensures Tracked(Cleaned(d, now), m, now)
  {
    var cutoff := now + Negate(d.window);
    if m.ts >= cutoff { assert m.seqNo in Kept(d.seen[m.fp], cutoff); }
  }

  lemma NextTracks(d: Detector, c: Call, m: Message, t: int)
    requires Tracked(d, m, t) && t <= Begins(c) <= Ends(c)
    ensures Tracked(Next(d, c), m, Ends(c))
  {
    match c
    case DoCleanup(now) => CleanedTracks(d, m, t, now);
    case DoCheck(x, now, later) =>
      if Verdict(d, x, now).None? {
        assert Tracked(Recorded(d, x), m, t);
        CleanedTracks(Recorded(d, x), m, t, later);
      }
  }

  lemma AcceptedIsTracked(d: Detector, c: Call)
    requires c.DoCheck? && Verdict(d, c.m, c.now).None? && c.now <= c.later
    ensures Tracked(Next(d, c), c.m, Ends(c))
  {
    var r := Recorded(d, c.m);
    assert Tracked(r, c.m, c.now);
    CleanedTracks(r, c.m, c.now, c.later);
  }

  lemma AfterSnoc(d: Detector, calls: seq<Call>, n: nat)
    requires n < |calls|
    ensures After(d, calls[..n + 1]) == Next(After(d, calls[..n]), calls[n])
  {
    assert calls[..n + 1][..n] == calls[..n];
  }

  /** Once accepted, a message stays tracked at every later point of the run. */
  lemma {:induction false} StaysTracked(d: Detector, calls: seq<Call>, i: nat, j: nat)
    requires ClockOk(calls) && Accepted(d, calls, i) && i < j <= |calls|
    ensures Tracked(After(d, calls[..j]), calls[i].m, Ends(calls[j - 1]))
    decreases j
  {
    if j == i + 1 {
      ClockForward(calls, i);
      FirstTracked(d, calls, i);
    } else {
      StaysTracked(d, calls, i, j - 1);
      ClockForward(calls, j - 1);
      LaterTracked(d, calls, calls[i].m, Ends(calls[j - 2]), j - 1);
    }
  }

  lemma ClockForward(calls: seq<Call>, n: nat)
    requires ClockOk(calls) && n < |calls|
    ensures Begins(calls[n]) <= Ends(calls[n]) && (n > 0 ==> Ends(calls[n - 1]) <= Begins(calls[n]))
  {
  }

  lemma FirstTracked(d: Detector, calls: seq<Call>, i: nat)
    requires Accepted(d, calls, i) && Begins(calls[i]) <= Ends(calls[i])
    ensures Tracked(After(d, calls[..i + 1]), calls[i].m, Ends(calls[i]))
  {
    AfterSnoc(d, calls, i);
    AcceptedIsTracked(After(d, calls[..i]), calls[i]);
  }

  lemma LaterTracked(d: Detector, calls: seq<Call>, m: Message, t: int, n: nat)
    requires n < |calls| && Tracked(After(d, calls[..n]), m, t) && t <= Begins(calls[n]) <= Ends(calls[n])
    ensures Tracked(After(d, calls[..n + 1]), m, Ends(calls[n]))
  {
    AfterSnoc(d, calls, n);
    NextTracks(After(d, calls[..n]), calls[n], m, t);
  }

  // ----- Soundness -----

  /** With the most negative window nothing is ever accepted, so it needs no case of its own. */
  lemma AcceptedInTime(d: Detector, m: Message, now: int)
    requires Verdict(d, m, now).None?
    ensures d.window > MIN_DURATION
    ensures now - m.ts <= d.window || (d.window == MAX_DURATION && now - m.ts > MAX_DURATION)
  {
  }

  /** Replay soundness: if a later message of the same source with a number not larger is accepted, the
      first message had already left the validity window. */
  lemma ReplayOnlyAfterExpiry(window: int64, zeroTime: int, calls: seq<Call>, i: nat, j: nat)
    requires ClockOk(calls) && i < j
    requires Accepted(New(window, zeroTime), calls, i) && Accepted(New(window, zeroTime), calls, j)
    requires calls[i].m.fp == calls[j].m.fp && calls[j].m.seqNo <= calls[i].m.seqNo
    ensures calls[j].now - calls[i].m.ts > New(window, zeroTime).window
  {
    var d := After(New(window, zeroTime), calls[..j]);
    var m := calls[i].m;
    AlwaysCoherent(window, zeroTime, calls[..j]);
    StaysTracked(New(window, zeroTime), calls, i, j);
    AcceptedInTime(d, calls[j].m, calls[j].now);
    assert Ends(calls[j - 1]) <= Begins(calls[j]);
    assert !(m.fp in d.seen && m.seqNo in d.seen[m.fp]);
  }

  /** No message is accepted twice, for every window below the largest duration. */
  lemma NeverAcceptedTwice(window: int64, zeroTime: int, calls: seq<Call>, i: nat, j: nat)
    requires window < MAX_DURATION && ClockOk(calls) && i < j
    requires Accepted(New(window, zeroTime), calls, i) && Accepted(New(window, zeroTime), calls, j)
    ensures calls[i].m != calls[j].m
  {
    if calls[i].m == calls[j].m {
      ReplayOnlyAfterExpiry(window, zeroTime, calls, i, j);
      AlwaysCoherent(window, zeroTime, calls[..j]);
      AcceptedInTime(After(New(window, zeroTime), calls[..j]), calls[j].m, calls[j].now);
    }
  }

  /** At the largest duration Sub saturates to the window itself, and a pruned message is accepted again. */
  lemma SaturatedWindowAcceptsTwice(zeroTime: int)
    ensures var m := Message("fp", 1, 0);
            var t := MAX_DURATION + 1;
            var calls := [DoCheck(m, 0, 0), DoCleanup(t), DoCheck(m, t, t)];
            ClockOk(calls) && Accepted(New(MAX_DURATION, zeroTime), calls, 0)
                && Accepted(New(MAX_DURATION, zeroTime), calls, 2)
  {
    var m := Message("fp", 1, 0);
    var t := MAX_DURATION + 1;
    var calls := [DoCheck(m, 0, 0), DoCleanup(t), DoCheck(m, t, t)];
    var d0 := New(MAX_DURATION, zeroTime);
    assert calls[..0] == [];
    AfterSnoc(d0, calls, 0);
    AfterSnoc(d0, calls, 1);
    PrunedWhole(zeroTime);
  }

  lemma PrunedWhole(zeroTime: int)
    ensures var m, t := Message("fp", 1, 0), MAX_DURATION + 1;
            var d := Cleaned(Checked(New(MAX_DURATION, zeroTime), m, 0, 0), t);
            Verdict(d, m, t).None?
  {
    var d1 := Checked(New(MAX_DURATION, zeroTime), Message("fp", 1, 0), 0, 0);
    OneEntry(zeroTime);
    assert Kept(map[1 := 0], MAX_DURATION + 1 + Negate(MAX_DURATION)) == map[];
    assert "fp" !in Cleaned(d1, MAX_DURATION + 1).seen && "fp" !in Cleaned(d1, MAX_DURATION + 1).lastSeqNo;
  }

  lemma OneEntry(zeroTime: int)
    ensures Checked(New(MAX_DURATION, zeroTime), Message("fp", 1, 0), 0, 0).seen == map["fp" := map[1 := 0]]
  {
    var r := Recorded(New(MAX_DURATION, zeroTime), Message("fp", 1, 0));
    assert r.seen == map["fp" := map[1 := 0]];
    var kept := Kept(map[1 := 0], Negate(MAX_DURATION));
    assert 1 in kept && kept == map[1 := 0];
    assert Cleaned(r, 0).seen == map["fp" := kept];
  }

  // ----- Completeness -----

  /** Every remembered last number was accepted in this run. */
  ghost predicate Sourced(d: Detector, d0: Detector, calls: seq<Call>) {
    forall fp <- d.lastSeqNo :: SourcedAt(d, d0, calls, fp)
  }

  lemma {:induction false} AlwaysSourced(window: int64, zeroTime: int, calls: seq<Call>)
    ensures Sourced(After(New(window, zeroTime), calls), New(window, zeroTime), calls)
  {
    var d0 := New(window, zeroTime);
    if calls != [] {
      var n := |calls| - 1;
      AlwaysSourced(window, zeroTime, calls[..n]);
      forall fp <- After(d0, calls).lastSeqNo
        ensures SourcedAt(After(d0, calls), d0, calls, fp)
      {
        StepSourced(d0, calls, After(d0, calls[..n]), fp);
      }
    }
  }

  /** The last number of fp was accepted in this run. */
  ghost predicate SourcedAt(d: Detector, d0: Detector, calls: seq<Call>, fp: string)
    requires fp in d.lastSeqNo
  {
    exists i: nat :: Accepted(d0, calls, i) && calls[i].m.fp == fp && calls[i].m.seqNo == d.lastSeqNo[fp]
  }

  lemma StepSourced(d0: Detector, calls: seq<Call>, d: Detector, fp: string)
    requires calls != [] && d == After(d0, calls[..|calls| - 1]) && Sourced(d, d0, calls[..|calls| - 1])
    requires fp in Next(d, calls[|calls| - 1]).lastSeqNo
    ensures SourcedAt(Next(d, calls[|calls| - 1]), d0, calls, fp)
  {
    var n := |calls| - 1;
    LastNumberOrigin(d, calls[n], fp);
    if fp in d.lastSeqNo && d.lastSeqNo[fp] == Next(d, calls[n]).lastSeqNo[fp] {
      assert SourcedAt(d, d0, calls[..n], fp);
      var i: nat :| Accepted(d0, calls[..n], i) && calls[..n][i].m.fp == fp
                    && calls[..n][i].m.seqNo == d.lastSeqNo[fp];
      AcceptedInPrefix(d0, calls, n, i);
    } else {
      assert Accepted(d0, calls, n);
    }
  }

  lemma LastNumberOrigin(d: Detector, c: Call, fp: string)
    requires fp in Next(d, c).lastSeqNo
    ensures (fp in d.lastSeqNo && Next(d, c).lastSeqNo[fp] == d.lastSeqNo[fp])
         || (c.DoCheck? && Verdict(d, c.m, c.now).None? && c.m.fp == fp && Next(d, c).lastSeqNo[fp] == c.m.seqNo)
  {
  }

  /** A message that is neither from the future nor expired. */
  predicate InTime(d: Detector, m: Message, now: int) {
    m.ts <= now + MAX_CLOCK_SKEW && Sub(now, m.ts) <= d.window
  }

  /** Replay completeness: in time and numbered above everything accepted from its source, a message is accepted. */
  lemma FreshIsAccepted(window: int64, zeroTime: int, calls: seq<Call>, j: nat)
    requires j < |calls| && calls[j].DoCheck? && InTime(New(window, zeroTime), calls[j].m, calls[j].now)
    requires forall i | 0 <= i < j && Accepted(New(window, zeroTime), calls, i) && calls[i].m.fp == calls[j].m.fp ::
               calls[i].m.seqNo < calls[j].m.seqNo
    ensures Accepted(New(window, zeroTime), calls, j)
  {
    var d := After(New(window, zeroTime), calls[..j]);
    AlwaysCoherent(window, zeroTime, calls[..j]);
    if calls[j].m.fp in d.lastSeqNo { LastIsSmaller(window, zeroTime, calls, j); }
  }

  lemma LastIsSmaller(window: int64, zeroTime: int, calls: seq<Call>, j: nat)
    requires j < |calls| && calls[j].DoCheck?
    requires forall i | 0 <= i < j && Accepted(New(window, zeroTime), calls, i) && calls[i].m.fp == calls[j].m.fp ::
               calls[i].m.seqNo < calls[j].m.seqNo
    requires calls[j].m.fp in After(New(window, zeroTime), calls[..j]).lastSeqNo
    ensures After(New(window, zeroTime), calls[..j]).lastSeqNo[calls[j].m.fp] < calls[j].m.seqNo
  {
    var d0 := New(window, zeroTime);
    var d := After(d0, calls[..j]);
    AlwaysSourced(window, zeroTime, calls[..j]);
    assert SourcedAt(d, d0, calls[..j], calls[j].m.fp);
    var i: nat :| Accepted(d0, calls[..j], i) && calls[..j][i].m.fp == calls[j].m.fp
                  && calls[..j][i].m.seqNo == d.lastSeqNo[calls[j].m.fp];
    AcceptedInPrefix(d0, calls, j, i);
  }

  lemma AcceptedInPrefix(d: Detector, calls: seq<Call>, j: nat, i: nat)
    requires j <= |calls| && Accepted(d, calls[..j], i)
    ensures i < j && calls[..j][i] == calls[i] && Accepted(d, calls, i)
  {
    assert calls[..j][..i] == calls[..i];
  }
}
