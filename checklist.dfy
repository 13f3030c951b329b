/**
 * Validation of the vendor recorder's standard output against the
 * checklist of its role.  The device with id 1 is the master; every other
 * id is a subordinate, whose checklist adds the line announcing that it
 * waits for the master's signal.
 */
module Checklist {
  const MasterId: int := 1

  const SerialPrefix: string := "Device serial number: "
  const VersionLine: string := "Device version: Rel; C: 1.6.110; D: 1.6.80[6109.7]; A: 1.6.14\r"
  const StartedLine: string := "Device started\r"
  const WaitingLine: string := "[subordinate mode] Waiting for signal from master\r"

  const SuccessReply: string := "success"
  const FailReply: string := "fail"

  function SerialLine(cameraName: string): string
  {
    SerialPrefix + cameraName + "\r"
  }

  /** The lines the recorder must print first, in order, for this role. */
  function Expected(cameraId: int, cameraName: string): (list: seq<string>)
    ensures |list| == if cameraId == MasterId then 3 else 4
    ensures list[0] == SerialLine(cameraName)
    ensures forall i :: 0 <= i < |list| ==> |list[i]| > 0 && list[i][|list[i]| - 1] == '\r'
  {
    var master := [SerialLine(cameraName), VersionLine, StartedLine];
    if cameraId == MasterId then master else master + [WaitingLine]
  }

  /** The subordinate checklist is the master checklist plus the waiting line. */
  lemma SubordinateExtendsMaster(cameraId: int, cameraName: string)
    requires cameraId != MasterId
    ensures Expected(cameraId, cameraName) == Expected(MasterId, cameraName) + [WaitingLine]
  {
  }

  /**
   * How many checklist entries the output matches, in order, before a
   * mismatch, the end of the output or the end of the checklist.
   */
  function MatchedPrefix(output: seq<string>, expected: seq<string>): (k: nat)
    ensures k <= |expected| && k <= |output|
    ensures output[..k] == expected[..k]
    ensures k < |expected| && k < |output| ==> output[k] != expected[k]
  {
    if expected == [] || output == [] || output[0] != expected[0] then 0
    else
      var k := MatchedPrefix(output[1..], expected[1..]);
      assert output[..k + 1] == [output[0]] + output[1..][..k];
      assert expected[..k + 1] == [expected[0]] + expected[1..][..k];
      k + 1
  }

  /** The three facts of MatchedPrefix's contract pin it down. */
  lemma {:induction false} MatchedPrefixUnique(output: seq<string>, expected: seq<string>, k: nat)
    requires k <= |expected| && k <= |output|
    requires output[..k] == expected[..k]
    requires k < |expected| && k < |output| ==> output[k] != expected[k]
    ensures MatchedPrefix(output, expected) == k
  {
    if k > 0 {
      assert output[0] == output[..k][0] && expected[0] == expected[..k][0];
      assert output[1..][..k - 1] == output[..k][1..];
      assert expected[1..][..k - 1] == expected[..k][1..];
      MatchedPrefixUnique(output[1..], expected[1..], k - 1);
    }
  }

  /** The recorder's output passes when the whole checklist is matched. */
  predicate Passes(output: seq<string>, expected: seq<string>)
  {
    MatchedPrefix(output, expected) == |expected|
  }

  /** Passing means: at least as many lines as entries, and the first ones equal the checklist. */
  lemma PassesIff(output: seq<string>, expected: seq<string>)
    ensures Passes(output, expected) <==> |output| >= |expected| && output[..|expected|] == expected
  {
    if |output| >= |expected| && output[..|expected|] == expected {
      MatchedPrefixUnique(output, expected, |expected|);
    }
  }

  /** A failed validation stopped at a line that differs from its entry, or at the end of the output. */
  lemma FailureCause(output: seq<string>, expected: seq<string>)
    requires !Passes(output, expected)
    ensures var k := MatchedPrefix(output, expected);
      k < |expected| && (k == |output| || output[k] != expected[k])
  {
  }

  /** Output that satisfies a subordinate also satisfies the master checklist of the same device. */
  lemma SubordinatePassImpliesMasterPass(output: seq<string>, cameraId: int, cameraName: string)
    requires cameraId != MasterId
    requires Passes(output, Expected(cameraId, cameraName))
    ensures Passes(output, Expected(MasterId, cameraName))
  {
    var sub := Expected(cameraId, cameraName);
    var master := Expected(MasterId, cameraName);
    PassesIff(output, sub);
    assert output[..3] == sub[..3] == master;
    PassesIff(output, master);
  }

  /**
   * The validation loop.  Each round first reads a line (`next` is the
   * read position), then tests `checki` against the checklist length, so
   * after a full match one more line is consumed without being echoed.
   * Every other line read is echoed before it is compared.
   */
  method ScanChecklist(output: seq<string>, expected: seq<string>)
    returns (checki: nat, next: nat, echoed: seq<string>)
    ensures checki == MatchedPrefix(output, expected)
    ensures next == if checki < |output| then checki + 1 else checki
    ensures echoed == if checki == |expected| then output[..checki] else output[..next]
  {
    checki, next, echoed := 0, 0, [];
    while true
      invariant checki <= |expected| && next == checki <= |output|
      invariant output[..checki] == expected[..checki]
      invariant echoed == output[..checki]
      decreases |output| - next
    {
      if next == |output| {
        break;
      }
      var line := output[next];
      next := next + 1;
      if checki >= |expected| {
        break;
      }
      echoed := echoed + [line];
      if line != expected[checki] {
        break;
      }
      assert output[..checki + 1] == output[..checki] + [line];
      checki := checki + 1;
    }
    MatchedPrefixUnique(output, expected, checki);
  }

  /**
   * The reply sent to the host after validation: "success" exactly when
   * the output begins with every checklist entry, in order.
   */
  function Verdict(output: seq<string>, expected: seq<string>): (reply: string)
    ensures reply == SuccessReply <==> |output| >= |expected| && output[..|expected|] == expected
    ensures reply == FailReply <==> !(|output| >= |expected| && output[..|expected|] == expected)
  {
    PassesIff(output, expected);
    if Passes(output, expected) then SuccessReply else FailReply
  }
}
