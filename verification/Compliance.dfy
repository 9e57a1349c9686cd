/** The path-policy gate in front of consensus and receipts. */
module Compliance {
  import opened ReceiptTypes
  import Replay = ReplayModel

  const MODE_STRICT := "strict"

  datatype Policy = Policy(id: string, allowedISDs: seq<nat>, mode: string)

  /** Every hop of a non-empty path lies in an allowed ISD, under the one supported mode. */
  predicate Compliant(p: Policy, path: Path) {
    path.hops != [] && p.mode == MODE_STRICT && forall i | 0 <= i < |path.hops| :: path.hops[i].isd in p.allowedISDs
  }

  function Offending(hops: seq<Hop>, allowed: seq<nat>, mode: string): seq<Hop> {
    if hops == [] then []
    else
      var n := |hops| - 1;
      Offending(hops[..n], allowed, mode) + if mode == MODE_STRICT && hops[n].isd in allowed then [] else [hops[n]]
  }

  /** The hops that break the policy, in path order; all of them under an unsupported mode. */
  method CheckHopsCompliant(hops: seq<Hop>, allowedISDs: seq<nat>, mode: string) returns (offending: seq<Hop>)
    ensures offending == Offending(hops, allowedISDs, mode)
  {
    offending := [];
    if |hops| == 0 { return; }
    var allowed: set<nat> := {};
    for i := 0 to |allowedISDs|
      invariant allowed == set j | 0 <= j < i :: allowedISDs[j]
    {
      allowed := allowed + {allowedISDs[i]};
    }
    if mode != MODE_STRICT {
      AllOffend(hops, allowedISDs, mode);
      return hops;
    }
    for i := 0 to |hops|
      invariant offending == Offending(hops[..i], allowedISDs, mode)
    {
      assert hops[..i + 1][..i] == hops[..i];
      if hops[i].isd !in allowed { offending := offending + [hops[i]]; }
    }
    assert hops[..|hops|] == hops;
  }

  lemma {:induction false} AllOffend(hops: seq<Hop>, allowed: seq<nat>, mode: string)
    requires mode != MODE_STRICT
    ensures Offending(hops, allowed, mode) == hops
  {
    if hops != [] {
      AllOffend(hops[..|hops| - 1], allowed, mode);
      assert hops == hops[..|hops| - 1] + [hops[|hops| - 1]];
    }
  }

  /** Nothing offends exactly when every hop is allowed under the supported mode. */
  lemma {:induction false} NoneOffends(p: Policy, path: Path)
    requires path.hops != []
    ensures Offending(path.hops, p.allowedISDs, p.mode) == [] <==> Compliant(p, path)
    decreases |path.hops|
  {
    if p.mode != MODE_STRICT {
      AllOffend(path.hops, p.allowedISDs, p.mode);
      return;
    }
    var n := |path.hops| - 1;
    var shorter := path.(hops := path.hops[..n]);
    if n > 0 { NoneOffends(p, shorter); }
    assert Compliant(p, path) <==> (n > 0 ==> Compliant(p, shorter)) && path.hops[n].isd in p.allowedISDs by {
      assert forall i | 0 <= i < n :: path.hops[i] == shorter.hops[i];
    }
  }

  datatype CheckResult = NoHops | Passed | Violation(offending: seq<Hop>)

  class Checker {
    const policy: Policy
    var replayDetector: Replay.ReplayDetector?

    constructor (policy: Policy)
      ensures this.policy == policy && replayDetector == null
    {
      this.policy, replayDetector := policy, null;
    }

    method SetReplayDetector(rd: Replay.ReplayDetector)
      modifies this
      ensures replayDetector == rd
    {
      replayDetector := rd;
    }

    /** Fail closed: a path passes exactly when it is compliant and, with a detector attached, not a replay. */
    method Check(path: Path, asked: int, now: int, later: int) returns (result: CheckResult)
      modifies replayDetector
      ensures result.NoHops? <==> path.hops == []
      ensures result.Passed? <==> (Compliant(policy, path) && (replayDetector == null ||
                Replay.Verdict(old(replayDetector.State()), Replay.Message(path.fingerprint, 0, asked), now).None?))
      ensures replayDetector != null ==> (replayDetector.State() ==
                if Compliant(policy, path)
                then Replay.Checked(old(replayDetector.State()), Replay.Message(path.fingerprint, 0, asked), now, later)
                else old(replayDetector.State()))
    {
      if |path.hops| == 0 { return NoHops; }
      if policy.mode != MODE_STRICT { return Violation(path.hops); }
      var offending := CheckHopsCompliant(path.hops, policy.allowedISDs, policy.mode);
      NoneOffends(policy, path);
      if |offending| > 0 { return Violation(offending); }
      if replayDetector != null {
        var err := replayDetector.Check(Replay.Message(path.fingerprint, 0, asked), now, later);
        if err.Some? { return Violation([]); }
      }
      result := Passed;
    }
  }
}
