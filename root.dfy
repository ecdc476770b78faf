/** The root command: load the batch, run every task, and print a summary of
    how many tasks succeeded and why the others failed. The tasks run
    concurrently, so their outcomes arrive in an order the program does not
    control; the model takes that order as any permutation of the launch
    order and proves that the summary's counts do not depend on it. */
module Root {
  import opened Wrappers
  import opened Strings
  import opened Shared
  import Helpers

  /** What one workflow run reports back: no error, or an error's text. */
  datatype Outcome = Success | Failure(message: string)

  /** The number of successful outcomes. */
  function SuccessCount(outcomes: seq<Outcome>): (n: nat)
    ensures n <= |outcomes|
    ensures n == |outcomes| <==> forall k | 0 <= k < |outcomes| :: outcomes[k].Success?
    decreases |outcomes|
  {
    if |outcomes| == 0 then 0
    else
      var last := |outcomes| - 1;
      SuccessCount(outcomes[..last]) + (if outcomes[last].Success? then 1 else 0)
  }

  /** The messages of the failed outcomes, in the order they arrived. */
  function FailureMessages(outcomes: seq<Outcome>): (messages: seq<string>)
    ensures |messages| <= |outcomes|
    ensures forall k | 0 <= k < |messages| :: Failure(messages[k]) in outcomes
    decreases |outcomes|
  {
    if |outcomes| == 0 then []
    else
      var last := |outcomes| - 1;
      FailureMessages(outcomes[..last]) + (if outcomes[last].Failure? then [outcomes[last].message] else [])
  }

  /** Every outcome is counted once: as a success or as a failure reason. */
  lemma {:induction false} CountsAddUp(outcomes: seq<Outcome>)
    ensures SuccessCount(outcomes) + |FailureMessages(outcomes)| == |outcomes|
    decreases |outcomes|
  {
    if |outcomes| > 0 {
      CountsAddUp(outcomes[..|outcomes| - 1]);
    }
  }

  /** The success count is the number of `Success` outcomes, wherever they are. */
  lemma {:induction false} SuccessCountIsMultiplicity(outcomes: seq<Outcome>)
    ensures SuccessCount(outcomes) == multiset(outcomes)[Success]
    decreases |outcomes|
  {
    if |outcomes| > 0 {
      var last := |outcomes| - 1;
      SuccessCountIsMultiplicity(outcomes[..last]);
      assert outcomes == outcomes[..last] + [outcomes[last]];
    }
  }

  /** A message is listed as often as a failure with that message arrived. */
  lemma {:induction false} FailureMessagesMultiplicity(outcomes: seq<Outcome>, m: string)
    ensures multiset(FailureMessages(outcomes))[m] == multiset(outcomes)[Failure(m)]
    decreases |outcomes|
  {
    if |outcomes| > 0 {
      var last := |outcomes| - 1;
      FailureMessagesMultiplicity(outcomes[..last], m);
      assert outcomes == outcomes[..last] + [outcomes[last]];
    }
  }

  /** Two arrival orders of the same outcomes give the same success count and
      the same failure reasons, up to order. */
  lemma {:induction false} OrderIndependence(a: seq<Outcome>, b: seq<Outcome>)
    requires multiset(a) == multiset(b)
    ensures SuccessCount(a) == SuccessCount(b)
    ensures |FailureMessages(a)| == |FailureMessages(b)|
    ensures multiset(FailureMessages(a)) == multiset(FailureMessages(b))
  {
    SuccessCountIsMultiplicity(a);
    SuccessCountIsMultiplicity(b);
    forall m
      ensures multiset(FailureMessages(a))[m] == multiset(FailureMessages(b))[m]
    {
      FailureMessagesMultiplicity(a, m);
      FailureMessagesMultiplicity(b, m);
    }
    assert multiset(FailureMessages(a)) == multiset(FailureMessages(b));
  }

  /** The fold over the outcome channel: count successes and failures, and
      collect each failure's message. */
  method CollectOutcomes(received: seq<Outcome>) returns (success: nat, failed: nat, reasonsFailed: seq<string>)
    ensures success == SuccessCount(received)
    ensures reasonsFailed == FailureMessages(received)
    ensures failed == |reasonsFailed|
    ensures success + failed == |received|
  {
    success, failed, reasonsFailed := 0, 0, [];
    for i := 0 to |received|
      invariant success == SuccessCount(received[..i])
      invariant reasonsFailed == FailureMessages(received[..i])
      invariant failed == |reasonsFailed|
    {
      assert received[..i + 1][..i] == received[..i];
      match received[i]
      case Failure(message) =>
        failed := failed + 1;
        reasonsFailed := reasonsFailed + [message];
      case Success =>
        success := success + 1;
    }
    assert received[..|received|] == received;
    CountsAddUp(received);
  }

  const SuccessLabel := "Successfull tasks: "
  const FailedLabel := "Failed tasks: "
  const ReasonsHeader := "Failure reasons:"
  const Bullet := "- "

  /** The tail of the summary: a bare newline when nothing failed, else a
      header and one bulleted line per reason. */
  function FailureReasons(reasons: seq<string>): (text: string)
    ensures text == "\n" <==> |reasons| == 0
    ensures |text| > 0 && text[|text| - 1] == '\n'
  {
    if |reasons| == 0 then "\n"
    else ReasonsHeader + "\n" + Bullet + Join(reasons, "\n" + Bullet) + "\n"
  }

  /** The summary the root command prints. */
  function Summary(success: nat, failed: nat, reasons: seq<string>): string
  {
    SuccessLabel + NatToString(success) + "\n" + FailedLabel + NatToString(failed) + "\n" + FailureReasons(reasons)
  }

  /** Each reason as a bulleted line. */
  function Bulleted(reasons: seq<string>): (lines: seq<string>)
    ensures |lines| == |reasons|
    ensures forall k | 0 <= k < |reasons| :: lines[k] == Bullet + reasons[k]
  {
    seq(|reasons|, k requires 0 <= k < |reasons| => Bullet + reasons[k])
  }

  /** The lines of the summary's tail. */
  function TailLines(reasons: seq<string>): seq<string>
  {
    if |reasons| == 0 then ["", ""] else [ReasonsHeader] + Bulleted(reasons) + [""]
  }

  /** The lines of a summary, in order; the text ends with a newline, so the
      last line is empty. */
  function SummaryLines(success: nat, failed: nat, reasons: seq<string>): seq<string>
  {
    [SuccessLabel + NatToString(success), FailedLabel + NatToString(failed)] + TailLines(reasons)
  }

  /** What a summary says, read back from its text. */
  datatype Tally = Tally(success: nat, failed: nat, reasons: seq<string>)

  /** The count after `prefix` on a line, if the line is `prefix` and digits. */
  function ReadCount(line: string, prefix: string): Option<nat>
  {
    if |prefix| <= |line| && line[..|prefix|] == prefix && IsDigits(line[|prefix|..])
    then Some(DigitsValue(line[|prefix|..]))
    else None
  }

  /** The reasons of bulleted lines, if every line is bulleted. */
  function ReadBullets(lines: seq<string>): Option<seq<string>>
  {
    if |lines| == 0 then Some([])
    else
      var line := lines[0];
      if |Bullet| <= |line| && line[..|Bullet|] == Bullet then
        match ReadBullets(lines[1..])
        case Some(rest) => Some([line[|Bullet|..]] + rest)
        case None => None
      else None
  }

  /** A reader for the summary's lines. */
  function ReadLines(lines: seq<string>): Option<Tally>
  {
    if |lines| < 4 || lines[|lines| - 1] != "" then None
    else
      match (ReadCount(lines[0], SuccessLabel), ReadCount(lines[1], FailedLabel))
      case (Some(success), Some(failed)) =>
        if lines[2..] == ["", ""] then Some(Tally(success, failed, []))
        else if lines[2] == ReasonsHeader then
          match ReadBullets(lines[3..|lines| - 1])
          case Some(reasons) => if |reasons| > 0 then Some(Tally(success, failed, reasons)) else None
          case None => None
        else None
      case _ => None
  }

  /** A reader for the summary's format. */
  function ReadSummary(text: string): Option<Tally>
  {
    ReadLines(Split(text, '\n'))
  }

  lemma {:induction false} BulletedJoin(reasons: seq<string>)
    requires |reasons| >= 1
    ensures Bullet + Join(reasons, "\n" + Bullet) == Join(Bulleted(reasons), "\n")
    decreases |reasons|
  {
    if |reasons| > 1 {
      var rest := reasons[1..];
      BulletedJoin(rest);
      assert Bulleted(reasons)[1..] == Bulleted(rest);
      assert Bullet + Join(reasons, "\n" + Bullet)
          == (Bullet + reasons[0]) + "\n" + (Bullet + Join(rest, "\n" + Bullet));
    }
  }

  lemma {:induction false} JoinAfterTwo(a: string, b: string, rest: seq<string>)
    requires |rest| >= 1
    ensures Join([a, b] + rest, "\n") == a + "\n" + b + "\n" + Join(rest, "\n")
  {
    JoinOfTwo([a, b], rest, "\n");
    assert [a, b][1..] == [b];
  }

  lemma {:induction false} FailureReasonsAsLines(reasons: seq<string>)
    ensures FailureReasons(reasons) == Join(TailLines(reasons), "\n")
  {
    if |reasons| == 0 {
      assert ["", ""][1..] == [""];
    } else {
      var bullets := Bulleted(reasons);
      BulletedJoin(reasons);
      JoinOfTwo([ReasonsHeader], bullets, "\n");
      JoinOfTwo([ReasonsHeader] + bullets, [""], "\n");
    }
  }

  /** The summary is its lines joined by newlines. */
  lemma {:induction false} SummaryAsLines(success: nat, failed: nat, reasons: seq<string>)
    ensures Summary(success, failed, reasons) == Join(SummaryLines(success, failed, reasons), "\n")
  {
    FailureReasonsAsLines(reasons);
    JoinAfterTwo(SuccessLabel + NatToString(success), FailedLabel + NatToString(failed), TailLines(reasons));
  }

  lemma {:induction false} CountLine(prefix: string, n: nat)
    requires '\n' !in prefix
    ensures '\n' !in prefix + NatToString(n)
    ensures ReadCount(prefix + NatToString(n), prefix) == Some(n)
  {
    var line := prefix + NatToString(n);
    assert line[..|prefix|] == prefix;
    assert line[|prefix|..] == NatToString(n);
    NatToStringRoundTrip(n);
    assert forall k | 0 <= k < |NatToString(n)| :: NatToString(n)[k] != '\n';
  }

  lemma {:induction false} ReadBulletsRoundTrip(reasons: seq<string>)
    ensures ReadBullets(Bulleted(reasons)) == Some(reasons)
    decreases |reasons|
  {
    if |reasons| > 0 {
      var line := Bullet + reasons[0];
      assert line[..|Bullet|] == Bullet && line[|Bullet|..] == reasons[0];
      ReadBulletsRoundTrip(reasons[1..]);
      assert Bulleted(reasons)[1..] == Bulleted(reasons[1..]);
      assert reasons == [reasons[0]] + reasons[1..];
    }
  }

  /** No line of the summary's tail holds a newline, when no reason does. */
  lemma {:induction false} TailLinesAreLines(reasons: seq<string>)
    requires forall k | 0 <= k < |reasons| :: '\n' !in reasons[k]
    ensures forall k | 0 <= k < |TailLines(reasons)| :: '\n' !in TailLines(reasons)[k]
  {
    var lines := TailLines(reasons);
    forall k | 1 <= k < |lines| - 1
      ensures '\n' !in lines[k]
    {
      assert lines[k] == Bullet + reasons[k - 1];
    }
  }

  /** No line of a summary holds a newline, when no reason does. */
  lemma {:induction false} SummaryLinesAreLines(success: nat, failed: nat, reasons: seq<string>)
    requires forall k | 0 <= k < |reasons| :: '\n' !in reasons[k]
    ensures forall k | 0 <= k < |SummaryLines(success, failed, reasons)| ::
      '\n' !in SummaryLines(success, failed, reasons)[k]
  {
    var head := [SuccessLabel + NatToString(success), FailedLabel + NatToString(failed)];
    var tail := TailLines(reasons);
    CountLine(SuccessLabel, success);
    CountLine(FailedLabel, failed);
    TailLinesAreLines(reasons);
    forall k | 0 <= k < |head + tail|
      ensures '\n' !in (head + tail)[k]
    {
      if k >= 2 {
        assert (head + tail)[k] == tail[k - 2];
      }
    }
  }

  lemma {:induction false} SummarySplit(success: nat, failed: nat, reasons: seq<string>)
    requires forall k | 0 <= k < |reasons| :: '\n' !in reasons[k]
    ensures Split(Summary(success, failed, reasons), '\n') == SummaryLines(success, failed, reasons)
  {
    SummaryLinesAreLines(success, failed, reasons);
    SummaryAsLines(success, failed, reasons);
    JoinThenSplit(SummaryLines(success, failed, reasons), '\n');
  }

  /** The first two lines of a summary read back as its counts. */
  lemma {:induction false} CountLinesOfSummary(success: nat, failed: nat, reasons: seq<string>)
    ensures ReadCount(SummaryLines(success, failed, reasons)[0], SuccessLabel) == Some(success)
    ensures ReadCount(SummaryLines(success, failed, reasons)[1], FailedLabel) == Some(failed)
  {
    CountLine(SuccessLabel, success);
    CountLine(FailedLabel, failed);
  }

  /** The lines after the counts: two empty lines when nothing failed, else
      the header, the bulleted reasons and an empty last line. */
  lemma {:induction false} TailOfSummary(success: nat, failed: nat, reasons: seq<string>)
    ensures var lines := SummaryLines(success, failed, reasons);
      && |lines| >= 4 && lines[|lines| - 1] == ""
      && (|reasons| == 0 ==> lines[2..] == ["", ""])
      && (|reasons| > 0 ==> lines[2] == ReasonsHeader && lines[2..] != ["", ""] && lines[3..|lines| - 1] == Bulleted(reasons))
  {
    var lines := SummaryLines(success, failed, reasons);
    if |reasons| > 0 {
      assert lines[2..][0] == ReasonsHeader;
    }
  }

  /** A summary's lines read back as its counts and reasons. */
  lemma {:induction false} ReadSummaryLines(success: nat, failed: nat, reasons: seq<string>)
    ensures ReadLines(SummaryLines(success, failed, reasons)) == Some(Tally(success, failed, reasons))
  {
    CountLinesOfSummary(success, failed, reasons);
    TailOfSummary(success, failed, reasons);
    if |reasons| > 0 {
      ReadBulletsRoundTrip(reasons);
    }
  }

  /** The summary can be read back: its counts and, when no reason spans
      several lines, its reasons in order. */
  lemma {:induction false} SummaryRoundTrip(success: nat, failed: nat, reasons: seq<string>)
    requires forall k | 0 <= k < |reasons| :: '\n' !in reasons[k]
    ensures ReadSummary(Summary(success, failed, reasons)) == Some(Tally(success, failed, reasons))
  {
    SummarySplit(success, failed, reasons);
    ReadSummaryLines(success, failed, reasons);
  }

  /** The two counts of a summary, read back from its first two lines. */
  function ReadCounts(text: string): Option<(nat, nat)>
  {
    var lines := Split(text, '\n');
    if |lines| < 2 then None
    else
      match (ReadCount(lines[0], SuccessLabel), ReadCount(lines[1], FailedLabel))
      case (Some(success), Some(failed)) => Some((success, failed))
      case _ => None
  }

  /** The counts can always be read back from the summary, whatever the
      failure reasons hold. */
  lemma {:induction false} SummaryCountsRoundTrip(success: nat, failed: nat, reasons: seq<string>)
    ensures ReadCounts(Summary(success, failed, reasons)) == Some((success, failed))
  {
    var l0 := SuccessLabel + NatToString(success);
    var l1 := FailedLabel + NatToString(failed);
    var tail := FailureReasons(reasons);
    assert '\n' !in SuccessLabel && '\n' !in FailedLabel;
    CountLine(SuccessLabel, success);
    CountLine(FailedLabel, failed);
    assert Summary(success, failed, reasons) == l0 + ['\n'] + (l1 + ['\n'] + tail);
    SplitAfterPiece(l0, '\n', l1 + ['\n'] + tail);
    SplitAfterPiece(l1, '\n', tail);
  }

  /** The outcomes of the tasks, in launch order. */
  function Outcomes(tasks: seq<CopilotInput>, runTask: CopilotInput -> Outcome): (r: seq<Outcome>)
    ensures |r| == |tasks|
  {
    seq(|tasks|, k requires 0 <= k < |tasks| => runTask(tasks[k]))
  }

  /** What the root command leaves behind: the summary on standard output,
      or a line in the log when the batch could not be loaded. */
  datatype Report = Printed(text: string) | Logged(text: string)

  /** The log line for a batch that could not be loaded (log.Println puts a
      space between its two operands). */
  function ConfigErrorLog(error: string): string
  {
    "An error occurred while loading the configuration: " + " " + error
  }

  /** The root command: read and validate the batch; if that fails, log the
      error and launch nothing; else run every task, gather the outcomes in
      the order they arrive and print the summary. */
  method Run(content: Result<string>, decode: string -> Result<CopilotTasks>, runTask: CopilotInput -> Outcome)
    returns (launched: seq<CopilotInput>, arrival: seq<Outcome>, report: Report)
    ensures content.Err? ==> report == Logged(ConfigErrorLog(content.error))
    ensures content.Ok? && decode(content.value).Err? ==> report == Logged(ConfigErrorLog(decode(content.value).error))
    ensures content.Ok? && decode(content.value).Ok? && ValidationError(decode(content.value).value.tasks).Some? ==>
      report == Logged(ConfigErrorLog(ValidationError(decode(content.value).value.tasks).value))
    ensures !Helpers.ConfigAccepted(content, decode) ==> launched == [] && arrival == [] && report.Logged?
    ensures Helpers.ConfigAccepted(content, decode) ==>
      launched == decode(content.value).value.tasks && NoSharedResources(launched)
    ensures report.Printed? <==> Helpers.ConfigAccepted(content, decode)
    ensures multiset(arrival) == multiset(Outcomes(launched, runTask))
    ensures SuccessCount(arrival) == SuccessCount(Outcomes(launched, runTask))
    ensures multiset(FailureMessages(arrival)) == multiset(FailureMessages(Outcomes(launched, runTask)))
    ensures report.Printed? ==>
      report.text == Summary(SuccessCount(arrival), |FailureMessages(arrival)|, FailureMessages(arrival))
    ensures report.Printed? ==> SuccessCount(arrival) + |FailureMessages(arrival)| == |launched|
  {
    var config := Helpers.ReadConfigToTasks(content, decode);
    if config.Err? {
      launched, arrival := [], [];
      assert Outcomes(launched, runTask) == [];
      report := Logged(ConfigErrorLog(config.error));
      return;
    }
    launched := config.value.tasks;
    var sent := Outcomes(launched, runTask);
    arrival :| multiset(arrival) == multiset(sent);
    OrderIndependence(arrival, sent);
    var success, failed, reasonsFailed := CollectOutcomes(arrival);
    report := Printed(Summary(success, failed, reasonsFailed));
    assert |arrival| == |launched| by {
      assert |multiset(arrival)| == |multiset(sent)|;
    }
  }
}
