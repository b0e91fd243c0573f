/** The `process:nbn-orders` console command: select the applications ready
    for NBN ordering, queue one ProcessNbnOrdersJob per application, and
    report the count. */
module Commands {
  import opened Records
  import Decimal
  import opened Jobs

  /** Symfony's Command::SUCCESS. */
  const Success: int := 0

  /** One line the command writes with `$this->info()`. */
  datatype Line = NoWork | Processing(count: nat) | Dispatched(count: nat)

  const NoWorkText: string := "No NBN applications to process."
  const ProcessingPrefix: string := "Processing "
  const ProcessingSuffix: string := " NBN applications..."
  const DispatchedPrefix: string := "Dispatched "
  const DispatchedSuffix: string := " jobs to queue."

  /** The text shown on the console for a line. */
  function Text(l: Line): string {
    match l
    case NoWork => NoWorkText
    case Processing(n) => ProcessingPrefix + Decimal.FromNat(n) + ProcessingSuffix
    case Dispatched(n) => DispatchedPrefix + Decimal.FromNat(n) + DispatchedSuffix
  }

  /** The console text of a run. */
  function Render(output: seq<Line>): (text: seq<string>)
    ensures |text| == |output|
    ensures forall i :: 0 <= i < |output| ==> text[i] == Text(output[i])
  {
    if output == [] then [] else Render(output[..|output| - 1]) + [Text(output[|output| - 1])]
  }

  /** The count in the middle of a line framed by `prefix` and `suffix`. */
  lemma {:induction false} FramedCountDetermined(prefix: string, suffix: string, m: nat, n: nat)
    requires prefix + Decimal.FromNat(m) + suffix == prefix + Decimal.FromNat(n) + suffix
    ensures m == n
  {
    var a, b := Decimal.FromNat(m), Decimal.FromNat(n);
    var line := prefix + a + suffix;
    assert |a| == |b|;
    assert line[|prefix|..|prefix| + |a|] == a;
    assert (prefix + b + suffix)[|prefix|..|prefix| + |b|] == b;
    Decimal.FromNatInjective(m, n);
  }

  /** Different lines never show the same text: the console text of a line
      names its kind and its count unambiguously. */
  lemma TextInjective(l1: Line, l2: Line)
    requires Text(l1) == Text(l2)
    ensures l1 == l2
  {
    match l1 {
      case NoWork =>
        assert Text(l2)[0] == 'N';
      case Processing(m) =>
        assert Text(l2)[0] == 'P';
        FramedCountDetermined(ProcessingPrefix, ProcessingSuffix, m, l2.count);
      case Dispatched(m) =>
        assert Text(l2)[0] == 'D';
        FramedCountDetermined(DispatchedPrefix, DispatchedSuffix, m, l2.count);
    }
  }

  /** The applications carried by a sequence of queued jobs, in queue order. */
  function QueuedApplications(jobs: seq<ProcessNbnOrdersJob>): (apps: seq<Application>)
    ensures |apps| == |jobs|
    ensures forall i :: 0 <= i < |jobs| ==> apps[i] == jobs[i].application
  {
    if jobs == [] then [] else QueuedApplications(jobs[..|jobs| - 1]) + [jobs[|jobs| - 1].application]
  }

  /** `$applications->each(...)`: one job per application, pushed in order. */
  method DispatchEach(applications: seq<Application>) returns (pushed: seq<ProcessNbnOrdersJob>)
    ensures QueuedApplications(pushed) == applications
  {
    pushed := [];
    for i := 0 to |applications|
      invariant |pushed| == i
      invariant forall k :: 0 <= k < i ==> pushed[k].application == applications[k]
    {
      var job := new ProcessNbnOrdersJob(applications[i]);
      pushed := pushed + [job];
    }
  }

  /** One run of the command over the application table. `pushed` is the jobs
      this run puts on the queue, in order; `output` is the lines it writes to
      the console (their text is `Render(output)`). The method has no modifies
      clause: it writes no Application record. */
  method Handle(table: seq<Application>) returns (exitCode: int, pushed: seq<ProcessNbnOrdersJob>, output: seq<Line>)
    ensures exitCode == Success
    ensures QueuedApplications(pushed) == ReadyForNbnOrdering(table)
    ensures pushed == [] ==> output == [NoWork]
    ensures pushed != [] ==> output == [Processing(|pushed|), Dispatched(|pushed|)]
  {
    var applications := ReadyForNbnOrdering(table);
    var count := |applications|;
    exitCode := Success;

    if count == 0 {
      pushed, output := [], [NoWork];
    } else {
      output := [Processing(count)];
      pushed := DispatchEach(applications);
      output := output + [Dispatched(count)];
    }
  }
}
