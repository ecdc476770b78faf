/** cmd/helpers.go: loading the task configuration and loading an event log.
    Reading a file is a parameter (its `Result`), and JSON decoding is an
    abstract partial function from text to a value. */
module Helpers {
  import opened Wrappers
  import opened Strings
  import opened Shared

  /** The lines of a text that are not empty, in order. */
  function NonEmptyLines(lines: seq<string>): (r: seq<string>)
    ensures forall k | 0 <= k < |r| :: r[k] != "" && r[k] in lines
    decreases |lines|
  {
    if |lines| == 0 then []
    else
      var last := lines[|lines| - 1];
      NonEmptyLines(lines[..|lines| - 1]) + (if last != "" then [last] else [])
  }

  /** The records of a log: the non-empty `\n`-separated segments of its text. */
  function Records(content: string): (r: seq<string>)
    ensures forall k | 0 <= k < |r| :: r[k] != "" && '\n' !in r[k]
  {
    NonEmptyLines(Split(content, '\n'))
  }

  lemma {:induction false} NonEmptyLinesAppend(p: seq<string>, q: seq<string>)
    ensures NonEmptyLines(p + q) == NonEmptyLines(p) + NonEmptyLines(q)
    decreases |q|
  {
    if |q| == 0 {
      assert p + q == p;
    } else {
      var q' := q[..|q| - 1];
      NonEmptyLinesAppend(p, q');
      assert (p + q)[..|p + q| - 1] == p + q';
    }
  }

  /** A newline at the end of the log adds no record. */
  lemma {:induction false} TrailingNewlineAddsNoRecord(content: string)
    ensures Records(content + "\n") == Records(content)
  {
    SplitTrailingSeparator(content, '\n');
    NonEmptyLinesAppend(Split(content, '\n'), [""]);
  }

  /** Every non-empty segment of the log is a record, and records keep the
      order of their segments: the records of two concatenated texts split
      at a newline are the records of each. */
  lemma {:induction false} RecordsOfJoinedLogs(a: string, b: string)
    ensures Records(a + "\n" + b) == Records(a) + Records(b)
  {
    var la, lb := Split(a, '\n'), Split(b, '\n');
    SplitThenJoin(a, '\n');
    SplitThenJoin(b, '\n');
    JoinOfTwo(la, lb, "\n");
    JoinThenSplit(la + lb, '\n');
    NonEmptyLinesAppend(la, lb);
  }

  /** One more line adds itself to the kept lines when it is not empty. */
  lemma {:induction false} NonEmptyLinesStep(lines: seq<string>, i: nat)
    requires i < |lines|
    ensures NonEmptyLines(lines[..i + 1]) == NonEmptyLines(lines[..i]) + (if lines[i] != "" then [lines[i]] else [])
  {
    assert lines[..i + 1][..i] == lines[..i];
  }

  /** The kept lines of a text are those of any prefix, then those of the rest. */
  lemma {:induction false} NonEmptyLinesSplit(lines: seq<string>, n: nat)
    requires n <= |lines|
    ensures NonEmptyLines(lines) == NonEmptyLines(lines[..n]) + NonEmptyLines(lines[n..])
  {
    NonEmptyLinesAppend(lines[..n], lines[n..]);
    assert lines[..n] + lines[n..] == lines;
  }

  /** A non-empty line that does not decode, after kept lines that all do,
      is the first record that does not decode. */
  lemma {:induction false} FirstUndecodableRecord<E>(lines: seq<string>, i: nat, decode: string -> Result<E>, error: string)
    requires i < |lines| && lines[i] != "" && decode(lines[i]) == Err(error)
    requires forall k | 0 <= k < |NonEmptyLines(lines[..i])| :: decode(NonEmptyLines(lines[..i])[k]).Ok?
    ensures exists k | 0 <= k < |NonEmptyLines(lines)| ::
      && decode(NonEmptyLines(lines)[k]) == Err(error)
      && forall j | 0 <= j < k :: decode(NonEmptyLines(lines)[j]).Ok?
  {
    NonEmptyLinesStep(lines, i);
    NonEmptyLinesSplit(lines, i + 1);
    var before := NonEmptyLines(lines[..i]);
    assert NonEmptyLines(lines)[|before|] == lines[i];
    assert forall j | 0 <= j < |before| :: NonEmptyLines(lines)[j] == before[j];
  }

  /** LoadEvents: split the log on `\n`, skip empty lines, decode the others
      in order; the first line that does not decode fails the whole load. */
  method LoadEvents<E>(content: Result<string>, decode: string -> Result<E>) returns (events: Result<seq<E>>)
    ensures content.Err? ==> events == Err(content.error)
    ensures content.Ok? ==>
      (events.Ok? <==> forall k | 0 <= k < |Records(content.value)| :: decode(Records(content.value)[k]).Ok?)
    ensures events.Ok? ==> content.Ok? && |events.value| == |Records(content.value)|
    ensures events.Ok? ==> forall k | 0 <= k < |events.value| ::
      decode(Records(content.value)[k]) == Ok(events.value[k])
    ensures content.Ok? && events.Err? ==> exists k | 0 <= k < |Records(content.value)| ::
      && decode(Records(content.value)[k]) == Err(events.error)
      && forall j | 0 <= j < k :: decode(Records(content.value)[j]).Ok?
  {
    if content.Err? {
      return Err(content.error);
    }
    var lines := Split(content.value, '\n');
    // The records the contract speaks of are the kept lines of `lines`.
    assert Records(content.value) == NonEmptyLines(lines);
    var decoded: seq<E> := [];
    for i := 0 to |lines|
      invariant |decoded| == |NonEmptyLines(lines[..i])|
      invariant forall k | 0 <= k < |decoded| :: decode(NonEmptyLines(lines[..i])[k]) == Ok(decoded[k])
    {
      var line := TrimSuffix(lines[i], "\n");
      TrimAbsentSuffix(lines[i], '\n');
      NonEmptyLinesStep(lines, i);
      if line != "" {
        var event := decode(line);
        if event.Err? {
          FirstUndecodableRecord(lines, i, decode, event.error);
          return Err(event.error);
        }
        decoded := decoded + [event.value];
      }
    }
    assert lines[..|lines|] == lines;
    events := Ok(decoded);
  }

  /** The configuration loads: the file was read, it decodes, and the batch validates. */
  predicate ConfigAccepted(content: Result<string>, decode: string -> Result<CopilotTasks>)
  {
    content.Ok? && decode(content.value).Ok? && ValidationError(decode(content.value).value.tasks).None?
  }

  /** ReadConfigToTasks: read, decode, validate; the first failure is returned
      unchanged and no configuration comes back with it. */
  method ReadConfigToTasks(content: Result<string>, decode: string -> Result<CopilotTasks>)
    returns (config: Result<CopilotTasks>)
    ensures config.Ok? <==> ConfigAccepted(content, decode)
    ensures config.Ok? ==> config.value == decode(content.value).value && NoSharedResources(config.value.tasks)
    ensures content.Err? ==> config == Err(content.error)
    ensures content.Ok? && decode(content.value).Err? ==> config == Err(decode(content.value).error)
    ensures content.Ok? && decode(content.value).Ok? && config.Err? ==>
      Some(config.error) == ValidationError(decode(content.value).value.tasks)
  {
    if content.Err? {
      return Err(content.error);
    }
    var tasks := decode(content.value);
    if tasks.Err? {
      return Err(tasks.error);
    }
    var err := Validate(tasks.value);
    if err.Some? {
      return Err(err.value);
    }
    config := Ok(tasks.value);
  }
}
