/**
 * Shared vocabulary of the two incentive-action validators: the optional
 * value, the `{status, message}` verdict, and "the first failing check of a
 * sequence of checks", which is what a `for` loop that throws on its first
 * failure computes.
 */
module Checks {

  datatype Option<+T> = None | Some(value: T)

  /** The `{status, message}` object both validators return. */
  datatype Verdict = Verdict(status: bool, message: string)

  const VALID_MESSAGE: string := "Valid market action"
  const FALLBACK_MESSAGE: string := "Invalid market action"

  // Messages both validators throw, in the order their checks run.
  const MSG_MARKET_MISSING: string := "Market is missing"
  const MSG_IDS_MISSING: string := "Incentive IDs are missing"
  const MSG_NO_INCENTIVES: string := "No incentives added"
  const MSG_ADDRESS_INVALID: string := "Incentive address is invalid"
  const MSG_NOT_ADDED: string := "Incentive token is not added"

  /** The verdict of an action whose every check passed. */
  const Accepted: Verdict := Verdict(true, VALID_MESSAGE)

  /**
   * The verdict the `catch` block builds from a thrown error: the error's
   * message, or the generic fallback when the message is empty.
   */
  function Rejected(thrown: string): Verdict
  {
    Verdict(false, if thrown != "" then thrown else FALLBACK_MESSAGE)
  }

  /**
   * The first failure in a sequence of check outcomes (`None` = the check
   * passed, `Some(m)` = it failed with message `m`), or `None` when all pass.
   */
  function FirstFailure(checks: seq<Option<string>>): Option<string>
  {
    if checks == [] then None
    else if checks[0].Some? then checks[0]
    else FirstFailure(checks[1..])
  }

  /** No failure is reported exactly when every check passes. */
  lemma {:induction false} FirstFailureNoneIff(checks: seq<Option<string>>)
    ensures FirstFailure(checks) == None <==> forall i :: 0 <= i < |checks| ==> checks[i] == None
  {
    if checks != [] {
      FirstFailureNoneIff(checks[1..]);
      assert forall i :: 1 <= i < |checks| ==> checks[i] == checks[1..][i - 1];
    }
  }

  /** A reported failure is the outcome of some check all of whose predecessors passed. */
  lemma {:induction false} FirstFailureIsFirst(checks: seq<Option<string>>, m: string)
    requires FirstFailure(checks) == Some(m)
    ensures exists i :: 0 <= i < |checks| && checks[i] == Some(m) &&
                        forall j :: 0 <= j < i ==> checks[j] == None
  {
    if checks[0].Some? {
      assert checks[0] == Some(m);
    } else {
      FirstFailureIsFirst(checks[1..], m);
      var i :| 0 <= i < |checks[1..]| && checks[1..][i] == Some(m) &&
               forall j :: 0 <= j < i ==> checks[1..][j] == None;
      assert checks[i + 1] == Some(m);
      assert forall j :: 1 <= j < i + 1 ==> checks[j] == checks[1..][j - 1];
    }
  }

  /** Conversely, a failing check whose predecessors all pass is the one reported. */
  lemma {:induction false} FirstFailureAt(checks: seq<Option<string>>, i: nat)
    requires i < |checks| && checks[i].Some?
    requires forall j :: 0 <= j < i ==> checks[j] == None
    ensures FirstFailure(checks) == checks[i]
  {
    if i > 0 {
      assert checks[1..][i - 1] == checks[i];
      FirstFailureAt(checks[1..], i - 1);
    }
  }

  /** Skipping a passing check does not change which failure comes first (one loop step). */
  lemma FirstFailureSkip(checks: seq<Option<string>>, i: nat)
    requires i < |checks| && checks[i] == None
    ensures FirstFailure(checks[i..]) == FirstFailure(checks[i + 1..])
  {
    assert checks[i..][1..] == checks[i + 1..];
  }

  /** A check that fails at the head of the remaining suffix is the one reported. */
  lemma FirstFailureHead(checks: seq<Option<string>>, i: nat)
    requires i < |checks| && checks[i].Some?
    ensures FirstFailure(checks[i..]) == checks[i]
  {
    assert checks[i..][0] == checks[i];
  }

  /** A single check decides alone. */
  lemma FirstFailureSingle(checks: seq<Option<string>>)
    requires |checks| == 1
    ensures FirstFailure(checks) == checks[0]
  {
    assert checks[1..] == [];
  }

  /** The first failure is always one of the messages the checks can produce. */
  lemma {:induction false} FirstFailureFrom(checks: seq<Option<string>>, messages: set<string>)
    requires forall i :: 0 <= i < |checks| && checks[i].Some? ==> checks[i].value in messages
    ensures FirstFailure(checks).Some? ==> FirstFailure(checks).value in messages
  {
    if checks != [] && checks[0].None? {
      assert forall i :: 0 <= i < |checks[1..]| ==> checks[1..][i] == checks[i + 1];
      FirstFailureFrom(checks[1..], messages);
    }
  }
}
