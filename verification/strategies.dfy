/**
 * Validation of the voting strategies a community is created or updated with:
 * a strategy may leave its contract threshold unset, but a threshold it sets
 * must be at least 1.
 */
module Strategies {
  import opened Wrappers

  /** A voting strategy as configured on a community; only the threshold is inspected here. */
  datatype Strategy = Strategy(name: string, threshold: Option<real>)

  /** The error text returned for a rejected threshold. */
  const ThresholdError := "Contract Threshold Cannot Be < 1."

  /** A strategy whose threshold is set and below 1. */
  predicate ThresholdTooLow(s: Strategy)
  {
    s.threshold.Some? && s.threshold.value < 1.0
  }

  /**
   * Checks the strategies in order and fails at the first threshold below 1.
   * The name keeps the spelling of the controller function it models.
   */
  function ValidateConractThreshold(strategies: seq<Strategy>): (r: Outcome<string>)
    ensures r.Fail? <==> exists i :: 0 <= i < |strategies| && ThresholdTooLow(strategies[i])
    ensures r.Fail? ==> r.error == ThresholdError
  {
    if |strategies| == 0 then Pass
    else if ThresholdTooLow(strategies[0]) then Fail(ThresholdError)
    else
      var rest := ValidateConractThreshold(strategies[1..]);
      assert forall i :: 1 <= i < |strategies| ==> strategies[i] == strategies[1..][i - 1];
      rest
  }

  /** A list passes exactly when both of its parts pass. */
  lemma {:induction false} ValidateConcat(a: seq<Strategy>, b: seq<Strategy>)
    ensures ValidateConractThreshold(a + b).Pass?
        <==> ValidateConractThreshold(a).Pass? && ValidateConractThreshold(b).Pass?
  {
    if |a| == 0 {
      assert a + b == b;
    } else {
      assert (a + b)[1..] == a[1..] + b;
      ValidateConcat(a[1..], b);
    }
  }

  /** Whether a list passes depends only on which strategies it holds, not on their order. */
  lemma ValidateOrderIndependent(a: seq<Strategy>, b: seq<Strategy>)
    requires multiset(a) == multiset(b)
    ensures ValidateConractThreshold(a) == ValidateConractThreshold(b)
  {
    if ValidateConractThreshold(a).Fail? {
      var i :| 0 <= i < |a| && ThresholdTooLow(a[i]);
      assert a[i] in multiset(b);
    }
    if ValidateConractThreshold(b).Fail? {
      var i :| 0 <= i < |b| && ThresholdTooLow(b[i]);
      assert b[i] in multiset(a);
    }
  }
}
