/**
 * The customer ledger and the evaluation step of the load-attempt
 * evaluator, as values: what `evaluate_transaction` and the helpers it
 * calls do to the customer base, and what the batch loop produces. The
 * class in VelocityCompile mutates a ledger in place and is proved to
 * follow these functions; the lemmas here state what the source promises
 * about them.
 */
module VelocityLedger {
  import opened VelocityHelpers

  datatype Option<T> = None | Some(value: T)

  /** One already-parsed load attempt. */
  datatype LoadAttempt = LoadAttempt(id: string, customerId: string, loadAmount: real, time: Time)

  /** The response `{id, customer_id, accepted}` emitted for a non-duplicate attempt. */
  datatype Response = Response(id: string, customerId: string, accepted: bool)

  /**
   * The counter entries of a customer's record. The source writes all four
   * together on the first acceptance, so before it they are all absent.
   */
  datatype Totals = Totals(loadedSoFarToday: real, loadedThisWeek: real, loadedVolToday: nat, lastTransaction: Time)

  /** A customer's record: every attempt id seen, and the counters once anything was accepted. */
  datatype CustomerInfo = CustomerInfo(loadIdList: seq<string>, totals: Option<Totals>)

  /** The ledger, keyed by customer id. */
  type CustomerBase = map<string, CustomerInfo>

  /** The outcome of one evaluation: the new ledger and the response, absent for a duplicate. */
  datatype Outcome = Outcome(base: CustomerBase, response: Option<Response>)

  /** The outcome of a batch: the final ledger and the responses in order. */
  datatype Batch = Batch(base: CustomerBase, responses: seq<Response>)

  // ---------------------------------------------------------------------
  // Reading a record: an absent counter reads as zero
  // ---------------------------------------------------------------------

  function LoadedSoFarToday(info: CustomerInfo): real {
    if info.totals.Some? then info.totals.value.loadedSoFarToday else 0.0
  }

  function LoadedThisWeek(info: CustomerInfo): real {
    if info.totals.Some? then info.totals.value.loadedThisWeek else 0.0
  }

  function LoadedVolToday(info: CustomerInfo): nat {
    if info.totals.Some? then info.totals.value.loadedVolToday else 0
  }

  /** The ids already used by a customer; none for a customer not on file. */
  function LoadIds(base: CustomerBase, customerId: string): seq<string> {
    if customerId in base then base[customerId].loadIdList else []
  }

  predicate IsDuplicate(base: CustomerBase, a: LoadAttempt) {
    a.customerId in base && a.id in base[a.customerId].loadIdList
  }

  // ---------------------------------------------------------------------
  // The ledger operations
  // ---------------------------------------------------------------------

  /** The ledger after recording an attempt id, creating the customer's record if needed. */
  function SavedLoadId(base: CustomerBase, customerId: string, loadId: string): CustomerBase {
    var info := if customerId in base then base[customerId] else CustomerInfo([], None);
    base[customerId := info.(loadIdList := info.loadIdList + [loadId])]
  }

  /** The record after an accepted load: both totals and the count grow, the time is kept. */
  function Updated(info: CustomerInfo, loadAmt: real, attemptTime: Time): CustomerInfo {
    info.(totals := Some(Totals(loadAmt + LoadedSoFarToday(info), loadAmt + LoadedThisWeek(info),
                                1 + LoadedVolToday(info), attemptTime)))
  }

  /** The counters after the rollover reset against the last accepted time. */
  function ResetTotals(tot: Totals, attemptTime: Time): Totals {
    var weekly := if CheckDiffStartWeek(tot.lastTransaction, attemptTime) then tot.(loadedThisWeek := 0.0) else tot;
    if CheckDiffStartDate(weekly.lastTransaction, attemptTime)
    then weekly.(loadedSoFarToday := 0.0, loadedVolToday := 0)
    else weekly
  }

  /** The record the limit check sees: reset when there is a last acceptance, as is otherwise. */
  function Rolled(info: CustomerInfo, attemptTime: Time): CustomerInfo {
    match info.totals
    case None => info
    case Some(tot) => info.(totals := Some(ResetTotals(tot, attemptTime)))
  }

  /**
   * One evaluation. A duplicate id for the customer changes nothing and
   * gets no response. Otherwise the id is recorded, the counters are rolled
   * over (this persists even when the attempt is then rejected), the limits
   * are checked against the rolled counters (zero for a customer with no
   * acceptance), and an accepted attempt is added to them.
   */
  function Evaluate(base: CustomerBase, a: LoadAttempt): Outcome {
    if IsDuplicate(base, a) then Outcome(base, None)
    else
      var saved := SavedLoadId(base, a.customerId, a.id);
      var rolled := Rolled(saved[a.customerId], a.time);
      var accepted := PassAllLimits(a.loadAmount, LoadedSoFarToday(rolled), LoadedThisWeek(rolled), LoadedVolToday(rolled));
      var info := if accepted then Updated(rolled, a.loadAmount, a.time) else rolled;
      Outcome(saved[a.customerId := info], Some(Response(a.id, a.customerId, accepted)))
  }

  function Emitted(r: Option<Response>): seq<Response> {
    if r.Some? then [r.value] else []
  }

  /** The batch loop: evaluate the attempts in order, keeping the responses that are present. */
  function Run(base: CustomerBase, attempts: seq<LoadAttempt>): Batch
    decreases |attempts|
  {
    if attempts == [] then Batch(base, [])
    else
      var prev := Run(base, attempts[..|attempts| - 1]);
      var step := Evaluate(prev.base, attempts[|attempts| - 1]);
      Batch(step.base, prev.responses + Emitted(step.response))
  }

  // ---------------------------------------------------------------------
  // Reference definitions, independent of the step function
  // ---------------------------------------------------------------------

  /** The prior counters of the attempt's customer, if it has any. */
  function Prior(base: CustomerBase, a: LoadAttempt): Option<Totals> {
    if a.customerId in base then base[a.customerId].totals else None
  }

  /** The daily total the attempt is checked against: zero unless the last acceptance was on the same date. */
  function DailyBaseline(base: CustomerBase, a: LoadAttempt): real {
    var p := Prior(base, a);
    if p.Some? && p.value.lastTransaction.day == a.time.day then p.value.loadedSoFarToday else 0.0
  }

  /** The weekly total the attempt is checked against: zero unless the last acceptance was in the same week. */
  function WeeklyBaseline(base: CustomerBase, a: LoadAttempt): real {
    var p := Prior(base, a);
    if p.Some? && WeekIndex(p.value.lastTransaction) == WeekIndex(a.time) then p.value.loadedThisWeek else 0.0
  }

  /** The daily count the attempt is checked against. */
  function VolBaseline(base: CustomerBase, a: LoadAttempt): nat {
    var p := Prior(base, a);
    if p.Some? && p.value.lastTransaction.day == a.time.day then p.value.loadedVolToday else 0
  }

  /** Whether the attempt fits all three limits given the baselines. */
  predicate WithinAllLimits(base: CustomerBase, a: LoadAttempt) {
    a.loadAmount + DailyBaseline(base, a) <= DAILY_LIMIT
    && a.loadAmount + WeeklyBaseline(base, a) <= WEEKLY_LIMIT
    && VolBaseline(base, a) < DAILY_VOL_LIMIT
  }

  /** The safety invariant: no customer's counters exceed the limits. */
  predicate LedgerWithinLimits(base: CustomerBase) {
    forall c :: c in base && base[c].totals.Some? ==>
      base[c].totals.value.loadedSoFarToday <= DAILY_LIMIT
      && base[c].totals.value.loadedThisWeek <= WEEKLY_LIMIT
      && base[c].totals.value.loadedVolToday <= DAILY_VOL_LIMIT
  }

  /** With non-negative amounts, the daily total is never negative and never above the weekly total. */
  predicate LedgerOrdered(base: CustomerBase) {
    forall c :: c in base && base[c].totals.Some? ==>
      0.0 <= base[c].totals.value.loadedSoFarToday <= base[c].totals.value.loadedThisWeek
  }

  /** Whether customer c has used id, either in the ledger or among the earlier attempts. */
  predicate Known(base: CustomerBase, attempts: seq<LoadAttempt>, c: string, id: string) {
    (c in base && id in base[c].loadIdList)
    || exists j :: 0 <= j < |attempts| && attempts[j].customerId == c && attempts[j].id == id
  }

  /** The attempts that are not same-customer duplicates of the ledger or of an earlier attempt, in order. */
  function NewAttempts(base: CustomerBase, attempts: seq<LoadAttempt>): seq<LoadAttempt>
    decreases |attempts|
  {
    if attempts == [] then []
    else
      var prefix := attempts[..|attempts| - 1];
      var last := attempts[|attempts| - 1];
      NewAttempts(base, prefix) + (if Known(base, prefix, last.customerId, last.id) then [] else [last])
  }

  /** The number of same-customer duplicates among the attempts. */
  function DuplicateCount(base: CustomerBase, attempts: seq<LoadAttempt>): nat
    decreases |attempts|
  {
    if attempts == [] then 0
    else
      var prefix := attempts[..|attempts| - 1];
      var last := attempts[|attempts| - 1];
      DuplicateCount(base, prefix) + (if Known(base, prefix, last.customerId, last.id) then 1 else 0)
  }

  // ---------------------------------------------------------------------
  // Properties of the ledger operations
  // ---------------------------------------------------------------------

  /** Recording an id appends it to that customer's list, creates the record if absent, and touches nothing else. */
  lemma SavedLoadIdSpec(base: CustomerBase, customerId: string, loadId: string)
    ensures SavedLoadId(base, customerId, loadId).Keys == base.Keys + {customerId}
    ensures SavedLoadId(base, customerId, loadId)[customerId].loadIdList == LoadIds(base, customerId) + [loadId]
    ensures SavedLoadId(base, customerId, loadId)[customerId].totals
         == (if customerId in base then base[customerId].totals else None)
    ensures forall c :: c in base && c != customerId ==> SavedLoadId(base, customerId, loadId)[c] == base[c]
  {
  }

  /** An accepted load adds the amount to both totals (absent ones read as zero), adds one to the count, and stamps the time. */
  lemma UpdatedSpec(info: CustomerInfo, loadAmt: real, attemptTime: Time)
    ensures Updated(info, loadAmt, attemptTime).loadIdList == info.loadIdList
    ensures Updated(info, loadAmt, attemptTime).totals.Some?
    ensures LoadedSoFarToday(Updated(info, loadAmt, attemptTime)) == LoadedSoFarToday(info) + loadAmt
    ensures LoadedThisWeek(Updated(info, loadAmt, attemptTime)) == LoadedThisWeek(info) + loadAmt
    ensures LoadedVolToday(Updated(info, loadAmt, attemptTime)) == LoadedVolToday(info) + 1
    ensures Updated(info, loadAmt, attemptTime).totals.value.lastTransaction == attemptTime
  {
  }

  /**
   * Rollover resets only the counters of the boundary crossed: a new week
   * zeroes only the weekly total, a new date zeroes only the daily total and
   * count; the last accepted time never changes.
   */
  lemma ResetTotalsSpec(tot: Totals, attemptTime: Time)
    ensures ResetTotals(tot, attemptTime).lastTransaction == tot.lastTransaction
    ensures ResetTotals(tot, attemptTime).loadedThisWeek
         == if WeekIndex(tot.lastTransaction) != WeekIndex(attemptTime) then 0.0 else tot.loadedThisWeek
    ensures ResetTotals(tot, attemptTime).loadedSoFarToday
         == if tot.lastTransaction.day != attemptTime.day then 0.0 else tot.loadedSoFarToday
    ensures ResetTotals(tot, attemptTime).loadedVolToday
         == if tot.lastTransaction.day != attemptTime.day then 0 else tot.loadedVolToday
  {
    CheckDiffStartWeekMeaning(tot.lastTransaction, attemptTime);
    CheckDiffStartDateMeaning(tot.lastTransaction, attemptTime);
  }

  /** Without a prior acceptance there is nothing to roll over; with one, only the counters change. */
  lemma RolledSpec(info: CustomerInfo, attemptTime: Time)
    ensures info.totals.None? ==> Rolled(info, attemptTime) == info
    ensures Rolled(info, attemptTime).loadIdList == info.loadIdList
    ensures Rolled(info, attemptTime).totals.Some? == info.totals.Some?
  {
  }

  // ---------------------------------------------------------------------
  // Properties of one evaluation
  // ---------------------------------------------------------------------

  /** A same-customer duplicate gets no response and leaves the whole ledger as it was. */
  lemma DuplicateSuppressed(base: CustomerBase, a: LoadAttempt)
    requires IsDuplicate(base, a)
    ensures Evaluate(base, a) == Outcome(base, None)
  {
  }

  /** A non-duplicate gets a response for its own id and customer, and its id is appended whatever the decision. */
  lemma NewAttemptRecorded(base: CustomerBase, a: LoadAttempt)
    requires !IsDuplicate(base, a)
    ensures Evaluate(base, a).response.Some?
    ensures Evaluate(base, a).response.value.id == a.id
    ensures Evaluate(base, a).response.value.customerId == a.customerId
    ensures Evaluate(base, a).base.Keys == base.Keys + {a.customerId}
    ensures Evaluate(base, a).base[a.customerId].loadIdList == LoadIds(base, a.customerId) + [a.id]
  {
  }

  /** Re-submitting an id just evaluated for the same customer, accepted or rejected, is suppressed. */
  lemma ReplaySuppressed(base: CustomerBase, a: LoadAttempt, b: LoadAttempt)
    requires b.customerId == a.customerId && b.id == a.id
    ensures Evaluate(Evaluate(base, a).base, b) == Outcome(Evaluate(base, a).base, None)
  {
    if !IsDuplicate(base, a) {
      NewAttemptRecorded(base, a);
      assert a.id in Evaluate(base, a).base[a.customerId].loadIdList;
    }
  }

  /** Other customers' records are never touched. */
  lemma OtherCustomersUntouched(base: CustomerBase, a: LoadAttempt)
    ensures forall c :: c in base && c != a.customerId ==> c in Evaluate(base, a).base && Evaluate(base, a).base[c] == base[c]
  {
  }

  /**
   * Duplicate detection and the decision are per customer: the outcome for
   * the attempt's customer depends only on that customer's own record, so
   * the same id under another customer is evaluated independently.
   */
  lemma EvaluationIsPerCustomer(base1: CustomerBase, base2: CustomerBase, a: LoadAttempt)
    requires (a.customerId in base1) == (a.customerId in base2)
    requires a.customerId in base1 ==> base1[a.customerId] == base2[a.customerId]
    ensures Evaluate(base1, a).response == Evaluate(base2, a).response
    ensures Evaluate(base1, a).base[a.customerId] == Evaluate(base2, a).base[a.customerId]
  {
  }

  /** The decision: accepted exactly when the amount fits all three limits over the rolled-over counters. */
  lemma DecisionSpec(base: CustomerBase, a: LoadAttempt)
    requires !IsDuplicate(base, a)
    ensures Evaluate(base, a).response.Some?
    ensures Evaluate(base, a).response.value.accepted <==> WithinAllLimits(base, a)
  {
    BaselineSpec(base, a);
  }

  /** The rolled-over counters the check reads are the reference baselines. */
  lemma BaselineSpec(base: CustomerBase, a: LoadAttempt)
    requires !IsDuplicate(base, a)
    ensures var rolled := Rolled(SavedLoadId(base, a.customerId, a.id)[a.customerId], a.time);
      LoadedSoFarToday(rolled) == DailyBaseline(base, a)
      && LoadedThisWeek(rolled) == WeeklyBaseline(base, a)
      && LoadedVolToday(rolled) == VolBaseline(base, a)
      && rolled.totals.Some? == Prior(base, a).Some?
      && (rolled.totals.Some? ==> rolled.totals.value.lastTransaction == Prior(base, a).value.lastTransaction)
  {
    var saved := SavedLoadId(base, a.customerId, a.id);
    if saved[a.customerId].totals.Some? {
      ResetTotalsSpec(saved[a.customerId].totals.value, a.time);
    }
  }

  /** On acceptance both totals grow by exactly the amount and the count by one over the baselines, and the time is recorded. */
  lemma AcceptedSpec(base: CustomerBase, a: LoadAttempt)
    requires !IsDuplicate(base, a)
    requires Evaluate(base, a).response.value.accepted
    ensures Evaluate(base, a).base[a.customerId].totals
         == Some(Totals(DailyBaseline(base, a) + a.loadAmount, WeeklyBaseline(base, a) + a.loadAmount,
                        VolBaseline(base, a) + 1, a.time))
  {
    BaselineSpec(base, a);
  }

  /**
   * On rejection nothing is added and the last accepted time stays: a
   * customer with no acceptance keeps no counters, and one with an
   * acceptance keeps its counters after the rollover reset only.
   */
  lemma RejectedSpec(base: CustomerBase, a: LoadAttempt)
    requires !IsDuplicate(base, a)
    requires !Evaluate(base, a).response.value.accepted
    ensures Prior(base, a).None? ==> Evaluate(base, a).base[a.customerId].totals.None?
    ensures Prior(base, a).Some? ==>
      Evaluate(base, a).base[a.customerId].totals
      == Some(Totals(DailyBaseline(base, a), WeeklyBaseline(base, a), VolBaseline(base, a),
                     Prior(base, a).value.lastTransaction))
  {
    BaselineSpec(base, a);
  }

  /** A rejected attempt never raises a counter above its prior value (for non-negative balances). */
  lemma RejectionNeverIncreases(base: CustomerBase, a: LoadAttempt)
    requires !IsDuplicate(base, a) && LedgerOrdered(base)
    requires !Evaluate(base, a).response.value.accepted
    ensures var info := Evaluate(base, a).base[a.customerId];
      LoadedSoFarToday(info) <= (if a.customerId in base then LoadedSoFarToday(base[a.customerId]) else 0.0)
      && LoadedThisWeek(info) <= (if a.customerId in base then LoadedThisWeek(base[a.customerId]) else 0.0)
      && LoadedVolToday(info) <= (if a.customerId in base then LoadedVolToday(base[a.customerId]) else 0)
  {
    RejectedSpec(base, a);
    if a.customerId in base && base[a.customerId].totals.Some? {
      assert 0.0 <= base[a.customerId].totals.value.loadedSoFarToday;
    }
  }

  // ---------------------------------------------------------------------
  // Invariants
  // ---------------------------------------------------------------------

  /** One evaluation keeps every customer within the limits. */
  lemma EvaluatePreservesLimits(base: CustomerBase, a: LoadAttempt)
    requires LedgerWithinLimits(base)
    ensures LedgerWithinLimits(Evaluate(base, a).base)
  {
    if !IsDuplicate(base, a) {
      var o := Evaluate(base, a);
      OtherCustomersUntouched(base, a);
      if o.response.value.accepted {
        DecisionSpec(base, a);
        AcceptedSpec(base, a);
      } else {
        RejectedSpec(base, a);
        if Prior(base, a).Some? {
          assert base[a.customerId].totals == Prior(base, a);
        }
      }
    }
  }

  /** With a non-negative amount, one evaluation keeps every daily total between zero and the weekly total. */
  lemma EvaluatePreservesOrder(base: CustomerBase, a: LoadAttempt)
    requires LedgerOrdered(base) && 0.0 <= a.loadAmount
    ensures LedgerOrdered(Evaluate(base, a).base)
  {
    if !IsDuplicate(base, a) {
      var o := Evaluate(base, a);
      OtherCustomersUntouched(base, a);
      var p := Prior(base, a);
      if p.Some? {
        assert base[a.customerId].totals == p;
        WeekCrossingIsDayCrossing(p.value.lastTransaction, a.time);
        CheckDiffStartWeekMeaning(p.value.lastTransaction, a.time);
        CheckDiffStartDateMeaning(p.value.lastTransaction, a.time);
        assert 0.0 <= DailyBaseline(base, a) <= WeeklyBaseline(base, a);
      }
      if o.response.value.accepted {
        AcceptedSpec(base, a);
      } else {
        RejectedSpec(base, a);
      }
    }
  }

  /** Safety: after any sequence of evaluations, no customer exceeds a limit. */
  lemma {:induction false} RunPreservesLimits(base: CustomerBase, attempts: seq<LoadAttempt>)
    requires LedgerWithinLimits(base)
    ensures LedgerWithinLimits(Run(base, attempts).base)
    decreases |attempts|
  {
    if attempts != [] {
      RunPreservesLimits(base, attempts[..|attempts| - 1]);
      EvaluatePreservesLimits(Run(base, attempts[..|attempts| - 1]).base, attempts[|attempts| - 1]);
    }
  }

  /** With non-negative amounts, every daily total stays between zero and the weekly total. */
  lemma {:induction false} RunPreservesOrder(base: CustomerBase, attempts: seq<LoadAttempt>)
    requires LedgerOrdered(base)
    requires forall j :: 0 <= j < |attempts| ==> 0.0 <= attempts[j].loadAmount
    ensures LedgerOrdered(Run(base, attempts).base)
    decreases |attempts|
  {
    if attempts != [] {
      RunPreservesOrder(base, attempts[..|attempts| - 1]);
      EvaluatePreservesOrder(Run(base, attempts[..|attempts| - 1]).base, attempts[|attempts| - 1]);
    }
  }

  // ---------------------------------------------------------------------
  // The batch
  // ---------------------------------------------------------------------

  /** One evaluation adds exactly the attempt's own (customer, id) pair to the ids on file. */
  lemma EvaluateRecordsOnlyItsId(base: CustomerBase, a: LoadAttempt)
    ensures forall c, id ::
      (c in Evaluate(base, a).base && id in Evaluate(base, a).base[c].loadIdList)
      <==> (c in base && id in base[c].loadIdList) || (c == a.customerId && id == a.id)
  {
    if !IsDuplicate(base, a) {
      NewAttemptRecorded(base, a);
      OtherCustomersUntouched(base, a);
    }
  }

  /** After a batch, a customer has used an id exactly when the ledger or one of the attempts had it. */
  lemma {:induction false} RunKnownIds(base: CustomerBase, attempts: seq<LoadAttempt>)
    ensures forall c, id ::
      (c in Run(base, attempts).base && id in Run(base, attempts).base[c].loadIdList) <==> Known(base, attempts, c, id)
    decreases |attempts|
  {
    if attempts != [] {
      var prefix := attempts[..|attempts| - 1];
      var last := attempts[|attempts| - 1];
      RunKnownIds(base, prefix);
      EvaluateRecordsOnlyItsId(Run(base, prefix).base, last);
      forall c, id ensures Known(base, attempts, c, id) <==> Known(base, prefix, c, id) || (c == last.customerId && id == last.id) {
        if exists j :: 0 <= j < |attempts| && attempts[j].customerId == c && attempts[j].id == id {
          var j :| 0 <= j < |attempts| && attempts[j].customerId == c && attempts[j].id == id;
          if j < |prefix| {
            assert prefix[j] == attempts[j];
          }
        }
        if exists j :: 0 <= j < |prefix| && prefix[j].customerId == c && prefix[j].id == id {
          var j :| 0 <= j < |prefix| && prefix[j].customerId == c && prefix[j].id == id;
          assert attempts[j] == prefix[j];
        }
      }
    }
  }

  /**
   * The batch emits one response per attempt that is not a same-customer
   * duplicate, in input order, each carrying that attempt's id and
   * customer; so the number of responses is the number of attempts minus
   * the duplicates.
   */
  lemma {:induction false} RunResponses(base: CustomerBase, attempts: seq<LoadAttempt>)
    ensures |Run(base, attempts).responses| == |NewAttempts(base, attempts)| == |attempts| - DuplicateCount(base, attempts)
    ensures forall k :: 0 <= k < |Run(base, attempts).responses| ==>
      Run(base, attempts).responses[k].id == NewAttempts(base, attempts)[k].id
      && Run(base, attempts).responses[k].customerId == NewAttempts(base, attempts)[k].customerId
    decreases |attempts|
  {
    if attempts != [] {
      var prefix := attempts[..|attempts| - 1];
      var last := attempts[|attempts| - 1];
      RunResponses(base, prefix);
      RunKnownIds(base, prefix);
      var prev := Run(base, prefix);
      assert IsDuplicate(prev.base, last) == Known(base, prefix, last.customerId, last.id);
      if !IsDuplicate(prev.base, last) {
        NewAttemptRecorded(prev.base, last);
      }
    }
  }
}
