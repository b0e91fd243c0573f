/** The repository's test scenarios, stated as clients of the job and the
    command: each one follows from the contracts of Jobs and Commands alone.
    `FailsAndLogsOnException` is added beside them for the `catch` block. */
module Scenarios {
  import opened Records
  import opened Jobs
  import Decimal
  import Commands

  /** The test record's request body, literally. */
  lemma PayloadForTestRecord(a: Application)
    requires a.address1 == "123 Main St" && a.address2 == Some("Unit 5")
    requires a.city == "Melbourne" && a.state == "VIC" && a.postcode == "3000"
    requires a.plan.name == "NBN 100/20"
    ensures PayloadOf(a) == map["address_1" := JString("123 Main St"),
                                "address_2" := JString("Unit 5"),
                                "city" := JString("Melbourne"),
                                "state" := JString("VIC"),
                                "postcode" := JString("3000"),
                                "plan name" := JString("NBN 100/20")]
    ensures "plan_name" !in PayloadOf(a)
  {
  }

  /** The endpoint answers with the successful stub body. */
  method CompletesOnSuccessfulResponse(a: Application, log: ErrorLog)
    requires a.status == Order && a.orderId == None
    modifies a, log
    ensures a.status == Complete && a.orderId == Some("ORD000000000000")
    ensures log.entries == old(log.entries)
  {
    var job := new ProcessNbnOrdersJob(a);
    job.Handle(p => Responded(200, Some("Successful"), Some("ORD000000000000")), log);
  }

  /** The endpoint answers 200 with the failure stub body. */
  method FailsOnFailedResponse(a: Application, log: ErrorLog)
    requires a.status == Order && a.orderId == None
    modifies a, log
    ensures a.status == OrderFailed && a.orderId == None
  {
    var job := new ProcessNbnOrdersJob(a);
    job.Handle(p => Responded(200, Some("Failed"), None), log);
  }

  /** The endpoint answers 503 "Service Unavailable": no exception is thrown,
      so nothing is logged, and the order fails. */
  method FailsOnServiceUnavailable(a: Application, log: ErrorLog)
    requires a.status == Order && a.orderId == None
    modifies a, log
    ensures a.status == OrderFailed && a.orderId == None
    ensures log.entries == old(log.entries)
  {
    var job := new ProcessNbnOrdersJob(a);
    job.Handle(p => Responded(503, None, None), log);
  }

  /** Not a repository test: the HTTP client throws (connection refused), so
      the error is logged with the application id and the order fails. */
  method FailsAndLogsOnException(a: Application, log: ErrorLog)
    requires a.status == Order && a.orderId == None
    modifies a, log
    ensures a.status == OrderFailed && a.orderId == None
    ensures log.entries == old(log.entries) + [LogEntry(FailureMessage, a.id, "Connection refused")]
  {
    var job := new ProcessNbnOrdersJob(a);
    job.Handle(p => Threw("Connection refused"), log);
  }

  /** The scope test: of an nbn/Order row, an nbn/Complete row and a
      mobile/Order row, only the first is selected. */
  lemma ScopeSelectsOnlyReadyRow(shouldInclude: Application, wrongStatus: Application, wrongPlanType: Application)
    requires shouldInclude.plan.planType == "nbn" && shouldInclude.status == Order
    requires wrongStatus.plan.planType == "nbn" && wrongStatus.status == Complete
    requires wrongPlanType.plan.planType == "mobile" && wrongPlanType.status == Order
    ensures ReadyForNbnOrdering([shouldInclude, wrongStatus, wrongPlanType]) == [shouldInclude]
  {
    var t := [shouldInclude, wrongStatus, wrongPlanType];
    assert t[1..] == [wrongStatus, wrongPlanType];
    assert t[1..][1..] == [wrongPlanType];
    assert ReadyForNbnOrdering(t[1..][1..][1..]) == [];
    assert ReadyForNbnOrdering(t[1..][1..]) == [];
    assert ReadyForNbnOrdering(t[1..]) == [];
  }

  lemma ThreeRendersAsDigit()
    ensures Decimal.FromNat(3) == "3"
  {
    assert Decimal.DigitChar(3) == '3';
  }

  /** The first summary line for a count of 3, literally. */
  lemma ProcessingLineForThree()
    ensures Commands.Text(Commands.Processing(3)) == "Processing 3 NBN applications..."
  {
  }

  /** The second summary line for a count of 3, literally. */
  lemma DispatchedLineForThree()
    ensures Commands.Text(Commands.Dispatched(3)) == "Dispatched 3 jobs to queue."
  {
  }

  /** Three ready applications: three jobs, and the two summary lines with 3. */
  method SummaryForThreeApplications(a1: Application, a2: Application, a3: Application)
    returns (pushed: seq<ProcessNbnOrdersJob>, output: seq<Commands.Line>)
    requires IsReadyForNbnOrdering(a1) && IsReadyForNbnOrdering(a2) && IsReadyForNbnOrdering(a3)
    ensures |pushed| == 3
    ensures pushed[0].application == a1 && pushed[1].application == a2 && pushed[2].application == a3
    ensures Commands.Render(output) == ["Processing 3 NBN applications...", "Dispatched 3 jobs to queue."]
  {
    var exitCode;
    AllReadySelectedWhole([a1, a2, a3]);
    exitCode, pushed, output := Commands.Handle([a1, a2, a3]);
    ProcessingLineForThree();
    DispatchedLineForThree();
  }

  /** Rows that are not ready (other statuses, other plan types): nothing is
      queued and the command reports that there is no work. */
  method NothingQueuedWhenNothingReady(table: seq<Application>)
    returns (exitCode: int, pushed: seq<ProcessNbnOrdersJob>, output: seq<Commands.Line>)
    requires forall i :: 0 <= i < |table| ==> !IsReadyForNbnOrdering(table[i])
    ensures exitCode == Commands.Success
    ensures pushed == [] && Commands.Render(output) == ["No NBN applications to process."]
  {
    NoneReadySelectsNothing(table);
    exitCode, pushed, output := Commands.Handle(table);
  }
}
