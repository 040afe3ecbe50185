/**
 * The evaluator object: it owns the customer ledger, updates it in place
 * one attempt at a time, and runs the batch over the parsed attempts.
 * Every method is proved to do what the value-level functions of
 * VelocityLedger describe, so the properties proved there hold of it.
 */
module VelocityCompile {
  import opened VelocityHelpers
  import opened VelocityLedger

  class VelocityLimitCompiler {
    /** Customer id to record; each instance owns a fresh one. */
    var customerBase: CustomerBase
    /** The attempts to evaluate, already parsed. */
    const loadAttemptList: seq<LoadAttempt>

    constructor (loadAttemptList: seq<LoadAttempt>)
      ensures customerBase == map[] && this.loadAttemptList == loadAttemptList
      ensures LedgerWithinLimits(customerBase) && LedgerOrdered(customerBase)
    {
      this.customerBase := map[];
      this.loadAttemptList := loadAttemptList;
    }

    /** Records an attempt id for a customer, creating the customer's record if absent. */
    method SaveLoadId(customerId: string, loadId: string)
      modifies this
      ensures customerBase == SavedLoadId(old(customerBase), customerId, loadId)
    {
      if customerId !in customerBase {
        customerBase := customerBase[customerId := CustomerInfo([], None)];
      }
      var info := customerBase[customerId];
      customerBase := customerBase[customerId := info.(loadIdList := info.loadIdList + [loadId])];
    }

    /** Adds an accepted load to the customer's counters and stamps its time. */
    method UpdateCustomerInfo(customerId: string, loadAmt: real, attemptTime: Time)
      requires customerId in customerBase
      modifies this
      ensures customerBase == old(customerBase)[customerId := Updated(old(customerBase)[customerId], loadAmt, attemptTime)]
    {
      var info := customerBase[customerId];
      var totals := Totals(loadAmt + LoadedSoFarToday(info), loadAmt + LoadedThisWeek(info),
                           1 + LoadedVolToday(info), attemptTime);
      customerBase := customerBase[customerId := info.(totals := Some(totals))];
    }

    /** Zeroes the weekly total on a new week, and the daily total and count on a new date. */
    method ResetDailyWeeklyLoadAmt(customerId: string, attemptTime: Time)
      requires customerId in customerBase && customerBase[customerId].totals.Some?
      modifies this
      ensures customerBase == old(customerBase)[customerId := Rolled(old(customerBase)[customerId], attemptTime)]
    {
      var info := customerBase[customerId];
      var totals := info.totals.value;
      if CheckDiffStartWeek(totals.lastTransaction, attemptTime) {
        totals := totals.(loadedThisWeek := 0.0);
      }
      if CheckDiffStartDate(totals.lastTransaction, attemptTime) {
        totals := totals.(loadedSoFarToday := 0.0, loadedVolToday := 0);
      }
      customerBase := customerBase[customerId := info.(totals := Some(totals))];
    }

    /**
     * Evaluates one attempt: a known customer with an acceptance, a known
     * customer without one, and a new customer are handled separately, as
     * the three branches of the evaluator; a duplicate id returns nothing.
     */
    method EvaluateTransaction(loadAttempt: LoadAttempt) returns (loadResponse: Option<Response>)
      modifies this
      ensures Outcome(customerBase, loadResponse) == Evaluate(old(customerBase), loadAttempt)
      ensures LedgerWithinLimits(old(customerBase)) ==> LedgerWithinLimits(customerBase)
    {
      ghost var before := customerBase;
      var customerId := loadAttempt.customerId;
      if customerId in customerBase {
        if customerBase[customerId].totals.Some? {
          if loadAttempt.id !in customerBase[customerId].loadIdList {
            SaveLoadId(customerId, loadAttempt.id);
            ResetDailyWeeklyLoadAmt(customerId, loadAttempt.time);
            var info := customerBase[customerId];
            if PassAllLimits(loadAttempt.loadAmount, LoadedSoFarToday(info), LoadedThisWeek(info), LoadedVolToday(info)) {
              UpdateCustomerInfo(customerId, loadAttempt.loadAmount, loadAttempt.time);
              loadResponse := Some(Response(loadAttempt.id, customerId, true));
            } else {
              loadResponse := Some(Response(loadAttempt.id, customerId, false));
            }
          } else {
            loadResponse := None;
          }
        } else {
          if loadAttempt.id !in customerBase[customerId].loadIdList {
            SaveLoadId(customerId, loadAttempt.id);
            if PassAllLimits(loadAttempt.loadAmount, 0.0, 0.0, 0) {
              UpdateCustomerInfo(customerId, loadAttempt.loadAmount, loadAttempt.time);
              loadResponse := Some(Response(loadAttempt.id, customerId, true));
            } else {
              loadResponse := Some(Response(loadAttempt.id, customerId, false));
            }
          } else {
            loadResponse := None;
          }
        }
      } else {
        SaveLoadId(customerId, loadAttempt.id);
        if PassAllLimits(loadAttempt.loadAmount, 0.0, 0.0, 0) {
          UpdateCustomerInfo(customerId, loadAttempt.loadAmount, loadAttempt.time);
          loadResponse := Some(Response(loadAttempt.id, customerId, true));
        } else {
          loadResponse := Some(Response(loadAttempt.id, customerId, false));
        }
      }
      if LedgerWithinLimits(before) {
        EvaluatePreservesLimits(before, loadAttempt);
      }
    }

    /**
     * The batch loop of the output step, without the file: evaluates every
     * parsed attempt in order and keeps each response that is present.
     */
    method OutputResponses() returns (responses: seq<Response>)
      modifies this
      ensures Batch(customerBase, responses) == Run(old(customerBase), loadAttemptList)
      ensures |responses| == |loadAttemptList| - DuplicateCount(old(customerBase), loadAttemptList)
      ensures LedgerWithinLimits(old(customerBase)) ==> LedgerWithinLimits(customerBase)
    {
      ghost var initial := customerBase;
      responses := [];
      for i := 0 to |loadAttemptList|
        invariant Batch(customerBase, responses) == Run(initial, loadAttemptList[..i])
      {
        assert loadAttemptList[..i + 1][..i] == loadAttemptList[..i];
        var loadResponse := EvaluateTransaction(loadAttemptList[i]);
        if loadResponse.Some? {
          responses := responses + [loadResponse.value];
        }
      }
      assert loadAttemptList[..|loadAttemptList|] == loadAttemptList;
      RunResponses(initial, loadAttemptList);
      if LedgerWithinLimits(initial) {
        RunPreservesLimits(initial, loadAttemptList);
      }
    }
  }
}
