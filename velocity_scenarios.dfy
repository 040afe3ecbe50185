/**
 * Concrete batches of the evaluator's tests, run from an empty ledger.
 * Most attempts are on Friday 2021-04-23 (day ordinal 737903); times are
 * seconds after midnight. One batch crosses into Saturday and the next
 * Monday to show the rollover.
 */
module VelocityScenarios {
  import opened VelocityHelpers
  import opened VelocityLedger

  const Friday: Ordinal := 737903

  function At(hour: int): Time
    requires 0 <= hour < 24
  {
    Time(Friday, hour * 3600)
  }

  /** Running one more attempt evaluates it on the ledger the earlier ones left. */
  lemma RunSnoc(base: CustomerBase, prefix: seq<LoadAttempt>, a: LoadAttempt)
    ensures Run(base, prefix + [a])
         == Batch(Evaluate(Run(base, prefix).base, a).base,
                  Run(base, prefix).responses + Emitted(Evaluate(Run(base, prefix).base, a).response))
  {
    assert (prefix + [a])[..|prefix|] == prefix;
  }

  /** A same-date attempt by a customer with that many counters, judged against the limits. */
  lemma SameDayStep(base: CustomerBase, a: LoadAttempt, tot: Totals)
    requires a.customerId in base && base[a.customerId].totals == Some(tot)
    requires a.id !in base[a.customerId].loadIdList
    requires tot.lastTransaction.day == a.time.day
    ensures var accepted := a.loadAmount + tot.loadedSoFarToday <= DAILY_LIMIT
                            && a.loadAmount + tot.loadedThisWeek <= WEEKLY_LIMIT
                            && tot.loadedVolToday < DAILY_VOL_LIMIT;
      Evaluate(base, a).response == Some(Response(a.id, a.customerId, accepted))
      && Evaluate(base, a).base[a.customerId]
         == CustomerInfo(base[a.customerId].loadIdList + [a.id],
                         Some(if accepted
                              then Totals(tot.loadedSoFarToday + a.loadAmount, tot.loadedThisWeek + a.loadAmount,
                                          tot.loadedVolToday + 1, a.time)
                              else tot))
  {
    DecisionSpec(base, a);
    NewAttemptRecorded(base, a);
    if Evaluate(base, a).response.value.accepted {
      AcceptedSpec(base, a);
    } else {
      RejectedSpec(base, a);
    }
  }

  /**
   * An attempt on a later date than the customer's last acceptance: the
   * daily total and count start from zero, the weekly total from the
   * stored one or from zero as the week is unchanged or new.
   */
  lemma NewDayStep(base: CustomerBase, a: LoadAttempt, tot: Totals, sameWeek: bool)
    requires a.customerId in base && base[a.customerId].totals == Some(tot)
    requires a.id !in base[a.customerId].loadIdList
    requires tot.lastTransaction.day != a.time.day
    requires sameWeek <==> WeekIndex(tot.lastTransaction) == WeekIndex(a.time)
    ensures var week := if sameWeek then tot.loadedThisWeek else 0.0;
      var accepted := a.loadAmount <= DAILY_LIMIT && a.loadAmount + week <= WEEKLY_LIMIT;
      Evaluate(base, a).response == Some(Response(a.id, a.customerId, accepted))
      && Evaluate(base, a).base[a.customerId]
         == CustomerInfo(base[a.customerId].loadIdList + [a.id],
                         Some(if accepted
                              then Totals(a.loadAmount, week + a.loadAmount, 1, a.time)
                              else Totals(0.0, week, 0, tot.lastTransaction)))
  {
    DecisionSpec(base, a);
    NewAttemptRecorded(base, a);
    if Evaluate(base, a).response.value.accepted {
      AcceptedSpec(base, a);
    } else {
      RejectedSpec(base, a);
    }
  }

  /** The first attempt of a customer not on file, judged against the limits alone. */
  lemma FirstStep(a: LoadAttempt)
    ensures var accepted := a.loadAmount <= DAILY_LIMIT && a.loadAmount <= WEEKLY_LIMIT;
      Evaluate(map[], a).response == Some(Response(a.id, a.customerId, accepted))
      && Evaluate(map[], a).base
         == map[a.customerId := CustomerInfo([a.id], if accepted then Some(Totals(a.loadAmount, a.loadAmount, 1, a.time)) else None)]
  {
    var empty: CustomerBase := map[];
    DecisionSpec(empty, a);
    NewAttemptRecorded(empty, a);
    assert Prior(empty, a).None?;
    var accepted := a.loadAmount <= DAILY_LIMIT && a.loadAmount <= WEEKLY_LIMIT;
    assert Evaluate(empty, a).response == Some(Response(a.id, a.customerId, accepted));
    if accepted {
      AcceptedSpec(empty, a);
    } else {
      RejectedSpec(empty, a);
    }
    assert LoadIds(empty, a.customerId) + [a.id] == [a.id];
    assert Evaluate(empty, a).base[a.customerId]
        == CustomerInfo([a.id], if accepted then Some(Totals(a.loadAmount, a.loadAmount, 1, a.time)) else None);
    assert Evaluate(empty, a).base.Keys == {a.customerId};
  }

  /** An accepted first attempt, its duplicate, then two more that fit: the duplicate gets no response. */
  lemma DuplicateOfAcceptedIsSuppressed()
    ensures Run(map[], [LoadAttempt("15887", "528", 3318.47, At(12)),
                        LoadAttempt("15887", "528", 200.0, At(13)),
                        LoadAttempt("15888", "528", 150.0, At(14)),
                        LoadAttempt("15889", "528", 1000.0, At(15))]).responses
         == [Response("15887", "528", true), Response("15888", "528", true), Response("15889", "528", true)]
  {
    var a1 := LoadAttempt("15887", "528", 3318.47, At(12));
    var a2 := LoadAttempt("15887", "528", 200.0, At(13));
    var a3 := LoadAttempt("15888", "528", 150.0, At(14));
    var a4 := LoadAttempt("15889", "528", 1000.0, At(15));
    assert [a1] + [a2] == [a1, a2];
    assert [a1, a2] + [a3] == [a1, a2, a3];
    assert [a1, a2, a3] + [a4] == [a1, a2, a3, a4];
    RunSnoc(map[], [], a1);
    FirstStep(a1);
    var b1 := Run(map[], [a1]).base;
    RunSnoc(map[], [a1], a2);
    DuplicateSuppressed(b1, a2);
    var b2 := Run(map[], [a1, a2]).base;
    RunSnoc(map[], [a1, a2], a3);
    SameDayStep(b2, a3, Totals(3318.47, 3318.47, 1, At(12)));
    var b3 := Run(map[], [a1, a2, a3]).base;
    RunSnoc(map[], [a1, a2, a3], a4);
    SameDayStep(b3, a4, Totals(3468.47, 3468.47, 2, At(14)));
  }

  /** A first attempt over the daily limit is rejected, its duplicate suppressed, and it consumes no capacity. */
  lemma DuplicateOfRejectedIsSuppressed()
    ensures Run(map[], [LoadAttempt("15899", "529", 6000.47, At(12))]).base
         == map["529" := CustomerInfo(["15899"], None)]
    ensures Run(map[], [LoadAttempt("15899", "529", 6000.47, At(12)),
                        LoadAttempt("15899", "529", 200.0, At(13)),
                        LoadAttempt("15900", "529", 150.0, At(14)),
                        LoadAttempt("15901", "529", 150.0, At(15)),
                        LoadAttempt("15902", "529", 150.0, At(16))]).responses
         == [Response("15899", "529", false), Response("15900", "529", true),
             Response("15901", "529", true), Response("15902", "529", true)]
  {
    var a1 := LoadAttempt("15899", "529", 6000.47, At(12));
    var a2 := LoadAttempt("15899", "529", 200.0, At(13));
    var a3 := LoadAttempt("15900", "529", 150.0, At(14));
    var a4 := LoadAttempt("15901", "529", 150.0, At(15));
    var a5 := LoadAttempt("15902", "529", 150.0, At(16));
    assert [a1] + [a2] == [a1, a2];
    assert [a1, a2] + [a3] == [a1, a2, a3];
    assert [a1, a2, a3] + [a4] == [a1, a2, a3, a4];
    assert [a1, a2, a3, a4] + [a5] == [a1, a2, a3, a4, a5];
    RunSnoc(map[], [], a1);
    FirstStep(a1);
    var b1 := Run(map[], [a1]).base;
    RunSnoc(map[], [a1], a2);
    DuplicateSuppressed(b1, a2);
    var b2 := Run(map[], [a1, a2]).base;
    RunSnoc(map[], [a1, a2], a3);
    DecisionSpec(b2, a3);
    NewAttemptRecorded(b2, a3);
    AcceptedSpec(b2, a3);
    var b3 := Run(map[], [a1, a2, a3]).base;
    RunSnoc(map[], [a1, a2, a3], a4);
    SameDayStep(b3, a4, Totals(150.0, 150.0, 1, At(14)));
    var b4 := Run(map[], [a1, a2, a3, a4]).base;
    RunSnoc(map[], [a1, a2, a3, a4], a5);
    SameDayStep(b4, a5, Totals(300.0, 300.0, 2, At(15)));
  }

  /** After three acceptances on one date, a fourth attempt that date is rejected by the count limit. */
  lemma FourthAttemptOfTheDayIsRejected()
    ensures Run(map[], [LoadAttempt("15887", "531", 100.0, At(9)),
                        LoadAttempt("15888", "531", 100.0, At(10)),
                        LoadAttempt("15889", "531", 100.0, At(11)),
                        LoadAttempt("15890", "531", 100.0, At(12))]).responses
         == [Response("15887", "531", true), Response("15888", "531", true),
             Response("15889", "531", true), Response("15890", "531", false)]
  {
    var a1 := LoadAttempt("15887", "531", 100.0, At(9));
    var a2 := LoadAttempt("15888", "531", 100.0, At(10));
    var a3 := LoadAttempt("15889", "531", 100.0, At(11));
    var a4 := LoadAttempt("15890", "531", 100.0, At(12));
    assert [a1] + [a2] == [a1, a2];
    assert [a1, a2] + [a3] == [a1, a2, a3];
    assert [a1, a2, a3] + [a4] == [a1, a2, a3, a4];
    RunSnoc(map[], [], a1);
    FirstStep(a1);
    var b1 := Run(map[], [a1]).base;
    RunSnoc(map[], [a1], a2);
    SameDayStep(b1, a2, Totals(100.0, 100.0, 1, At(9)));
    var b2 := Run(map[], [a1, a2]).base;
    assert b2["531"] == CustomerInfo(["15887", "15888"], Some(Totals(200.0, 200.0, 2, At(10))));
    RunSnoc(map[], [a1, a2], a3);
    SameDayStep(b2, a3, Totals(200.0, 200.0, 2, At(10)));
    var b3 := Run(map[], [a1, a2, a3]).base;
    assert b3["531"] == CustomerInfo(["15887", "15888", "15889"], Some(Totals(300.0, 300.0, 3, At(11))));
    RunSnoc(map[], [a1, a2, a3], a4);
    SameDayStep(b3, a4, Totals(300.0, 300.0, 3, At(11)));
  }

  /** Saturday's rejected 6000, evaluated on the ledger Friday's 4000 left. */
  lemma SaturdayRejectionStep()
    ensures Evaluate(map["540" := CustomerInfo(["16001"], Some(Totals(4000.0, 4000.0, 1, At(12))))],
                     LoadAttempt("16002", "540", 6000.0, Time(737904, 9 * 3600)))
         == Outcome(map["540" := CustomerInfo(["16001", "16002"], Some(Totals(0.0, 4000.0, 0, At(12))))],
                    Some(Response("16002", "540", false)))
  {
    var b1 := map["540" := CustomerInfo(["16001"], Some(Totals(4000.0, 4000.0, 1, At(12))))];
    var a2 := LoadAttempt("16002", "540", 6000.0, Time(737904, 9 * 3600));
    assert WeekIndex(At(12)) == 105414;
    assert WeekIndex(a2.time) == 105414;
    NewDayStep(b1, a2, Totals(4000.0, 4000.0, 1, At(12)), true);
    assert ["16001"] + ["16002"] == ["16001", "16002"];
    assert Evaluate(b1, a2).base.Keys == {"540"};
  }

  /**
   * A rejection on a new date keeps the rollover it caused: after 4000 on
   * Friday, 6000 on Saturday is rejected but leaves the daily total and
   * count zeroed and the weekly total at 4000.
   */
  lemma RejectionAfterRolloverPersists()
    ensures Run(map[], [LoadAttempt("16001", "540", 4000.0, At(12)),
                        LoadAttempt("16002", "540", 6000.0, Time(737904, 9 * 3600))])
         == Batch(map["540" := CustomerInfo(["16001", "16002"], Some(Totals(0.0, 4000.0, 0, At(12))))],
                  [Response("16001", "540", true), Response("16002", "540", false)])
  {
    var a1 := LoadAttempt("16001", "540", 4000.0, At(12));
    var a2 := LoadAttempt("16002", "540", 6000.0, Time(737904, 9 * 3600));
    var r1 := Response("16001", "540", true);
    var r2 := Response("16002", "540", false);
    assert [a1] + [a2] == [a1, a2];
    assert [r1] + [r2] == [r1, r2];
    var b1 := map["540" := CustomerInfo(["16001"], Some(Totals(4000.0, 4000.0, 1, At(12))))];
    var b2 := map["540" := CustomerInfo(["16001", "16002"], Some(Totals(0.0, 4000.0, 0, At(12))))];
    RunSnoc(map[], [], a1);
    FirstStep(a1);
    assert Run(map[], [a1]) == Batch(b1, [r1]);
    RunSnoc(map[], [a1], a2);
    SaturdayRejectionStep();
    assert Evaluate(b1, a2) == Outcome(b2, Some(r2));
  }

  /**
   * Continuing that batch: on the following Monday the week also resets,
   * so 1500 is judged against zero counters and accepted.
   */
  lemma MondayAfterRejectionStartsFresh()
    ensures Run(map[], [LoadAttempt("16001", "540", 4000.0, At(12)),
                        LoadAttempt("16002", "540", 6000.0, Time(737904, 9 * 3600)),
                        LoadAttempt("16003", "540", 1500.0, Time(737906, 8 * 3600))]).responses
         == [Response("16001", "540", true), Response("16002", "540", false), Response("16003", "540", true)]
    ensures Run(map[], [LoadAttempt("16001", "540", 4000.0, At(12)),
                        LoadAttempt("16002", "540", 6000.0, Time(737904, 9 * 3600)),
                        LoadAttempt("16003", "540", 1500.0, Time(737906, 8 * 3600))]).base["540"].totals
         == Some(Totals(1500.0, 1500.0, 1, Time(737906, 8 * 3600)))
  {
    var a1 := LoadAttempt("16001", "540", 4000.0, At(12));
    var a2 := LoadAttempt("16002", "540", 6000.0, Time(737904, 9 * 3600));
    var a3 := LoadAttempt("16003", "540", 1500.0, Time(737906, 8 * 3600));
    assert [a1, a2] + [a3] == [a1, a2, a3];
    RejectionAfterRolloverPersists();
    var b2 := Run(map[], [a1, a2]).base;
    assert WeekIndex(At(12)) == 105414;
    assert WeekIndex(a3.time) == 105415;
    RunSnoc(map[], [a1, a2], a3);
    NewDayStep(b2, a3, Totals(0.0, 4000.0, 0, At(12)), false);
  }
}
