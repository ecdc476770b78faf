/** workflow/activities.go: the activity that runs one Copilot task and logs
    the session's events, one text line per event. The Copilot SDK, the
    clock and the file system are not modelled; their results are inputs. */
module Activities {
  import opened Wrappers
  import opened Strings
  import opened Shared

  // ---------------------------------------------------------------------
  // dataToString
  // ---------------------------------------------------------------------

  /** One item of the rendering: the key, a colon, and the value's text. */
  function Item(key: string, value: string): string
  {
    key + ": " + value
  }

  /** `keys` lists every key of `m` exactly once, in some order. */
  predicate Enumerates(keys: seq<string>, m: map<string, string>)
  {
    && (forall i | 0 <= i < |keys| :: keys[i] in m)
    && (forall k | k in m :: k in keys)
    && (forall i, j | 0 <= i < j < |keys| :: keys[i] != keys[j])
  }

  /** The items of `m`, in the order of `keys`. */
  function Items(m: map<string, string>, keys: seq<string>): (items: seq<string>)
    requires forall i | 0 <= i < |keys| :: keys[i] in m
    ensures |items| == |keys|
    ensures forall i | 0 <= i < |keys| :: items[i] == Item(keys[i], m[keys[i]])
  {
    seq(|keys|, i requires 0 <= i < |keys| => Item(keys[i], m[keys[i]]))
  }

  /** `s` renders `m`: its items, in some order of the keys, joined by "; ". */
  ghost predicate IsRendering(m: map<string, string>, s: string)
  {
    exists keys :: Enumerates(keys, m) && s == Join(Items(m, keys), "; ")
  }

  /** dataToString: one item per key of the decoded data, in map iteration
      order, joined by "; ". The data is given already decoded (each value
      in its `%v` text), or as the error of the encode/decode round. */
  method DataToString(data: Result<map<string, string>>) returns (s: Result<string>)
    ensures data.Err? ==> s == Err(data.error)
    ensures data.Ok? ==> s.Ok? && IsRendering(data.value, s.value)
  {
    if data.Err? {
      return Err(data.error);
    }
    var m := data.value;
    var pending := m.Keys;
    ghost var keys: seq<string> := [];
    var ls: seq<string> := [];
    while pending != {}
      invariant forall k | k in pending :: k in m
      invariant forall i | 0 <= i < |keys| :: keys[i] in m && keys[i] !in pending
      invariant forall k | k in m :: k in pending || k in keys
      invariant forall i, j | 0 <= i < j < |keys| :: keys[i] != keys[j]
      invariant ls == Items(m, keys)
      decreases |pending|
    {
      var k :| k in pending;
      ItemsAppend(m, keys, k);
      ls := ls + [Item(k, m[k])];
      keys := keys + [k];
      pending := pending - {k};
    }
    assert Enumerates(keys, m);
    s := Ok(Join(ls, "; "));
  }

  /** Listing one more key adds its item at the end. */
  lemma {:induction false} ItemsAppend(m: map<string, string>, keys: seq<string>, k: string)
    requires forall i | 0 <= i < |keys| :: keys[i] in m
    requires k in m
    ensures Items(m, keys + [k]) == Items(m, keys) + [Item(k, m[k])]
  {
    assert forall i | 0 <= i < |keys| :: (keys + [k])[i] == keys[i];
  }

  lemma {:induction false} EnumerationMultiplicity(keys: seq<string>, m: map<string, string>, x: string)
    requires forall i | 0 <= i < |keys| :: keys[i] in m
    requires forall i, j | 0 <= i < j < |keys| :: keys[i] != keys[j]
    ensures multiset(keys)[x] == if x in keys then 1 else 0
    decreases |keys|
  {
    if |keys| > 0 {
      var last := |keys| - 1;
      EnumerationMultiplicity(keys[..last], m, x);
      assert keys == keys[..last] + [keys[last]];
      if x == keys[last] {
        assert x !in keys[..last];
      }
    }
  }

  /** Two renderings of the same data list the same keys: they differ only
      in the order of their items. */
  lemma {:induction false} EnumerationsArePermutations(k1: seq<string>, k2: seq<string>, m: map<string, string>)
    requires Enumerates(k1, m) && Enumerates(k2, m)
    ensures multiset(k1) == multiset(k2)
    ensures |k1| == |k2|
  {
    forall x
      ensures multiset(k1)[x] == multiset(k2)[x]
    {
      EnumerationMultiplicity(k1, m, x);
      EnumerationMultiplicity(k2, m, x);
    }
    assert multiset(k1) == multiset(k2);
  }

  /** A rendering has exactly one item per key of the data. */
  lemma {:induction false} EnumerationLength(keys: seq<string>, m: map<string, string>)
    requires Enumerates(keys, m)
    ensures |keys| == |m|
    decreases |keys|
  {
    if |keys| == 0 {
      assert m.Keys == {};
    } else {
      var k := keys[0];
      var rest := m - {k};
      assert Enumerates(keys[1..], rest) by {
        forall x | x in rest
          ensures x in keys[1..]
        {
          var i :| 0 <= i < |keys| && keys[i] == x;
          assert i != 0;
          assert keys[1..][i - 1] == x;
        }
      }
      EnumerationLength(keys[1..], rest);
      assert m.Keys == rest.Keys + {k};
    }
  }

  /** The data with no keys renders as the empty text, and only as that. */
  lemma {:induction false} RenderingOfNothing(s: string)
    ensures IsRendering(map[], s) <==> s == ""
  {
    if s == "" {
      assert Enumerates([], map[]);
      assert Items(map[], []) == [];
    }
    if IsRendering(map[], s) {
      var keys :| Enumerates(keys, map[]) && s == Join(Items(map[], keys), "; ");
      EnumerationLength(keys, map[]);
    }
  }

  /** Data with one key renders as that key's item, and only as that. */
  lemma {:induction false} RenderingOfOne(k: string, v: string, s: string)
    ensures IsRendering(map[k := v], s) <==> s == Item(k, v)
  {
    var m := map[k := v];
    if s == Item(k, v) {
      assert Enumerates([k], m);
      assert Items(m, [k]) == [Item(k, v)];
    }
    if IsRendering(m, s) {
      var keys :| Enumerates(keys, m) && s == Join(Items(m, keys), "; ");
      EnumerationLength(keys, m);
      assert keys == [k];
    }
  }

  // ---------------------------------------------------------------------
  // eventToLog
  // ---------------------------------------------------------------------

  /** The session event types the log names. `Unlisted` carries the text of
      any other type, and only of a type outside the listed constants: the
      listed types are always their own constructors, never `Unlisted`. */
  datatype EventType =
    | AssistantIntent | AssistantMessage | AssistantMessageDelta
    | AssistantReasoning | AssistantReasoningDelta
    | AssistantTurnStart | AssistantTurnEnd | AssistantUsage
    | ToolExecutionStart | ToolExecutionProgress | ToolExecutionPartialResult
    | ToolExecutionComplete | ToolUserRequested
    | UserMessage | SessionError | Abort
    | Unlisted(name: string)

  /** A session event: its type and its data, decoded as for DataToString. */
  datatype SessionEvent = SessionEvent(eventType: EventType, data: Result<map<string, string>>)

  /** The listed types whose line carries the event's data. */
  predicate CarriesData(t: EventType)
  {
    !t.Unlisted? && t != AssistantTurnStart && t != AssistantTurnEnd
  }

  /** The fixed label of each listed type that carries data. */
  function Label(t: EventType): string
    requires CarriesData(t)
  {
    match t
    case AssistantIntent => "Assistant Intent"
    case AssistantMessage => "Assistant Message"
    case AssistantMessageDelta => "Assistant Message Delta"
    case AssistantReasoning => "Assistant Reasoning"
    case AssistantReasoningDelta => "Assistant Reasoning Delta"
    case AssistantUsage => "Assistant Usage"
    case ToolExecutionStart => "Tool Execution Started"
    case ToolExecutionProgress => "Tool Execution Progress"
    case ToolExecutionPartialResult => "Tool Execution Partial Result"
    case ToolExecutionComplete => "Tool Execution Complete"
    case ToolUserRequested => "Tool User Requested"
    case UserMessage => "User Message"
    case SessionError => "Session Error"
    case Abort => "Aborted"
  }

  const TurnStarted := "Assistant Turn Started"
  const TurnEnded := "Assistant Turn Ended"
  const UnlistedOpen := "Event ["
  const UnlistedClose := "]: "
  const LabelClose := ": "

  /** The log line of an event of type `t` with rendered data `data`, at
      time `now`: turn boundaries carry no data, unlisted types no time. */
  function EventLine(now: string, t: EventType, data: string): string
  {
    match t
    case AssistantTurnStart => now + " - " + TurnStarted
    case AssistantTurnEnd => now + " - " + TurnEnded
    case Unlisted(name) => UnlistedOpen + name + UnlistedClose + data
    case _ => now + " - " + Label(t) + LabelClose + data
  }

  /** `line` is what eventToLog gives for `event` at `now`: the empty line
      when the data cannot be rendered, else the event's line for one of the
      data's renderings. */
  ghost predicate IsLogLine(now: string, event: SessionEvent, line: string)
  {
    if event.data.Err? then line == ""
    else exists d :: IsRendering(event.data.value, d) && line == EventLine(now, event.eventType, d)
  }

  /** eventToLog: render the data, then format by type. A failed rendering
      gives the empty line and no error. */
  method EventToLog(now: string, event: SessionEvent) returns (line: string, err: Option<string>)
    ensures err == None
    ensures event.data.Err? ==> line == ""
    ensures IsLogLine(now, event, line)
  {
    var data := DataToString(event.data);
    if data.Err? {
      return "", None;
    }
    line, err := EventLine(now, event.eventType, data.value), None;
  }

  /** What a log line says, read back: the type, and the data if any. */
  datatype LogEntry = LogEntry(eventType: EventType, data: string)

  predicate IsPrefix(p: string, s: string)
  {
    |p| <= |s| && s[..|p|] == p
  }

  /** The position of the first `c` in `s`, if any. */
  function IndexOf(s: string, c: char): (r: Option<nat>)
    ensures r.Some? ==> r.value < |s| && s[r.value] == c && c !in s[..r.value]
    ensures r.None? ==> c !in s
  {
    if |s| == 0 then None
    else if s[0] == c then Some(0)
    else match IndexOf(s[1..], c)
      case Some(i) => Some(i + 1)
      case None => None
  }

  /** `s` cut where `sep` stands at the first occurrence of its first
      character: the text before `sep` and the text after it. */
  function Cut(s: string, sep: string): (r: Option<(string, string)>)
    requires |sep| > 0
    ensures r.Some? ==> s == r.value.0 + sep + r.value.1 && sep[0] !in r.value.0
  {
    match IndexOf(s, sep[0])
    case Some(i) =>
      if IsPrefix(sep, s[i..]) then
        assert s == s[..i] + sep + s[i + |sep|..] by {
          assert s[i..] == sep + s[i + |sep|..];
        }
        Some((s[..i], s[i + |sep|..]))
      else None
    case None => None
  }

  /** The listed type whose label is `l`, if any. */
  function TypeOfLabel(l: string): (r: Option<EventType>)
    ensures r.Some? ==> CarriesData(r.value) && Label(r.value) == l
  {
    if l == "Assistant Intent" then Some(AssistantIntent)
    else if l == "Assistant Message" then Some(AssistantMessage)
    else if l == "Assistant Message Delta" then Some(AssistantMessageDelta)
    else if l == "Assistant Reasoning" then Some(AssistantReasoning)
    else if l == "Assistant Reasoning Delta" then Some(AssistantReasoningDelta)
    else if l == "Assistant Usage" then Some(AssistantUsage)
    else if l == "Tool Execution Started" then Some(ToolExecutionStart)
    else if l == "Tool Execution Progress" then Some(ToolExecutionProgress)
    else if l == "Tool Execution Partial Result" then Some(ToolExecutionPartialResult)
    else if l == "Tool Execution Complete" then Some(ToolExecutionComplete)
    else if l == "Tool User Requested" then Some(ToolUserRequested)
    else if l == "User Message" then Some(UserMessage)
    else if l == "Session Error" then Some(SessionError)
    else if l == "Aborted" then Some(Abort)
    else None
  }

  /** The entry of a line's text after the time and " - ": a turn boundary,
      or a label up to the first ':', then ": " and the data. */
  function ReadHeaded(rest: string): Option<LogEntry>
  {
    if rest == TurnStarted then Some(LogEntry(AssistantTurnStart, ""))
    else if rest == TurnEnded then Some(LogEntry(AssistantTurnEnd, ""))
    else match Cut(rest, LabelClose)
      case Some((l, data)) =>
        (match TypeOfLabel(l)
         case Some(t) => Some(LogEntry(t, data))
         case None => None)
      case None => None
  }

  /** The entry of a line's text after "Event [": the type's text up to the
      first ']', then "]: " and the data. */
  function ReadOpened(rest: string): Option<LogEntry>
  {
    match Cut(rest, UnlistedClose)
    case Some((name, data)) => Some(LogEntry(Unlisted(name), data))
    case None => None
  }

  /** A reader for eventToLog's lines, given the time they were written at. */
  function ReadEventLine(now: string, line: string): Option<LogEntry>
  {
    var head := now + " - ";
    if IsPrefix(head, line) then ReadHeaded(line[|head|..])
    else if IsPrefix(UnlistedOpen, line) then ReadOpened(line[|UnlistedOpen|..])
    else None
  }

  /** Each label names its own type, and no other. */
  lemma {:induction false} TypeOfLabelInverse(t: EventType)
    requires CarriesData(t)
    ensures TypeOfLabel(Label(t)) == Some(t)
  {
    if IsAssistantType(t) {
      TypeOfAssistantLabel(t);
    } else if IsToolType(t) {
      TypeOfToolLabel(t);
    } else {
      TypeOfOtherLabel(t);
    }
  }

  /** The six types whose label begins with "Assistant". */
  predicate IsAssistantType(t: EventType)
  {
    t.AssistantIntent? || t.AssistantMessage? || t.AssistantMessageDelta?
    || t.AssistantReasoning? || t.AssistantReasoningDelta? || t.AssistantUsage?
  }

  lemma {:induction false} TypeOfAssistantLabel(t: EventType)
    requires IsAssistantType(t)
    ensures TypeOfLabel(Label(t)) == Some(t)
  {
    match t
    case AssistantIntent =>
    case AssistantMessage =>
    case AssistantMessageDelta =>
    case AssistantReasoning =>
    case AssistantReasoningDelta =>
    case AssistantUsage =>
  }

  /** The five types whose label begins with "Tool". */
  predicate IsToolType(t: EventType)
  {
    t.ToolExecutionStart? || t.ToolExecutionProgress? || t.ToolExecutionPartialResult?
    || t.ToolExecutionComplete? || t.ToolUserRequested?
  }

  lemma {:induction false} TypeOfToolLabel(t: EventType)
    requires IsToolType(t)
    ensures TypeOfLabel(Label(t)) == Some(t)
  {
    match t
    case ToolExecutionStart =>
    case ToolExecutionProgress =>
    case ToolExecutionPartialResult =>
    case ToolExecutionComplete =>
    case ToolUserRequested =>
  }

  lemma {:induction false} TypeOfOtherLabel(t: EventType)
    requires CarriesData(t) && !IsAssistantType(t) && !IsToolType(t)
    ensures TypeOfLabel(Label(t)) == Some(t)
  {
    match t
    case UserMessage =>
    case SessionError =>
    case Abort =>
  }

  /** No label holds a ':', so a labelled line's first ':' ends its label. */
  lemma {:induction false} NoColonInLabels(t: EventType)
    requires CarriesData(t)
    ensures ':' !in Label(t)
  {
    if IsAssistantType(t) {
      NoColonInAssistantLabels(t);
    } else if IsToolType(t) {
      NoColonInToolLabels(t);
    } else {
      NoColonInOtherLabels(t);
    }
  }

  lemma {:induction false} NoColonInAssistantLabels(t: EventType)
    requires IsAssistantType(t)
    ensures ':' !in Label(t)
  {
    match t
    case AssistantIntent =>
    case AssistantMessage =>
    case AssistantMessageDelta =>
    case AssistantReasoning =>
    case AssistantReasoningDelta =>
    case AssistantUsage =>
  }

  lemma {:induction false} NoColonInToolLabels(t: EventType)
    requires IsToolType(t)
    ensures ':' !in Label(t)
  {
    match t
    case ToolExecutionStart =>
    case ToolExecutionProgress =>
    case ToolExecutionPartialResult =>
    case ToolExecutionComplete =>
    case ToolUserRequested =>
  }

  lemma {:induction false} NoColonInOtherLabels(t: EventType)
    requires CarriesData(t) && !IsAssistantType(t) && !IsToolType(t)
    ensures ':' !in Label(t)
  {
    match t
    case UserMessage =>
    case SessionError =>
    case Abort =>
  }

  lemma {:induction false} IndexOfFirst(p: string, c: char, rest: string)
    requires c !in p
    ensures IndexOf(p + [c] + rest, c) == Some(|p|)
    decreases |p|
  {
    if |p| > 0 {
      IndexOfFirst(p[1..], c, rest);
      assert (p + [c] + rest)[1..] == p[1..] + [c] + rest;
    }
  }

  /** A text without the separator's first character, then the separator,
      is cut right after that text. */
  lemma {:induction false} CutAfter(p: string, sep: string, rest: string)
    requires |sep| > 0 && sep[0] !in p
    ensures Cut(p + sep + rest, sep) == Some((p, rest))
  {
    var s := p + sep + rest;
    assert IndexOf(s, sep[0]) == Some(|p|) by {
      IndexOfFirst(p, sep[0], sep[1..] + rest);
      assert p + [sep[0]] + (sep[1..] + rest) == s;
    }
    assert s[|p|..] == sep + rest;
    assert s[..|p|] == p;
    assert s[|p| + |sep|..] == rest;
  }

  /** A line that starts with the time reads as a turn boundary or as a
      labelled line, by what follows the time. */
  lemma {:induction false} ReadHeadedLine(now: string, rest: string)
    ensures ReadEventLine(now, now + " - " + rest) == ReadHeaded(rest)
  {
    var head := now + " - ";
    var line := head + rest;
    assert line[..|head|] == head && line[|head|..] == rest;
  }

  /** A labelled text reads back as its type and data. */
  lemma {:induction false} ReadLabelledRest(t: EventType, data: string)
    requires CarriesData(t)
    ensures ReadHeaded(Label(t) + LabelClose + data) == Some(LogEntry(t, data))
  {
    var rest := Label(t) + LabelClose + data;
    assert rest != TurnStarted && rest != TurnEnded by {
      assert rest[|Label(t)|] == ':';
      assert ':' !in TurnStarted && ':' !in TurnEnded;
    }
    assert Cut(rest, LabelClose) == Some((Label(t), data)) by {
      NoColonInLabels(t);
      CutAfter(Label(t), LabelClose, data);
    }
    TypeOfLabelInverse(t);
  }

  /** The line of a data-carrying listed type reads back as its type and data. */
  lemma {:induction false} ReadLabelledEventLine(now: string, t: EventType, data: string)
    requires CarriesData(t)
    ensures ReadEventLine(now, EventLine(now, t, data)) == Some(LogEntry(t, data))
  {
    var rest := Label(t) + LabelClose + data;
    assert EventLine(now, t, data) == now + " - " + rest;
    assert ReadEventLine(now, now + " - " + rest) == Some(LogEntry(t, data)) by {
      ReadLabelledRest(t, data);
      ReadHeadedLine(now, rest);
    }
  }

  /** A text whose first character differs from a non-empty prefix's does not
      start with that prefix. */
  lemma {:induction false} NotPrefixByFirst(p: string, s: string)
    requires |p| > 0 && |s| > 0 && s[0] != p[0]
    ensures !IsPrefix(p, s)
  {
    if |p| <= |s| {
      assert s[..|p|][0] == s[0];
    }
  }

  /** A line that starts with "Event [" and not with the time reads as an
      unlisted type, up to the first ']'. */
  lemma {:induction false} ReadOpenedLine(now: string, rest: string)
    requires |now| > 0 && now[0] != 'E'
    ensures ReadEventLine(now, UnlistedOpen + rest) == ReadOpened(rest)
  {
    var head := now + " - ";
    var line := UnlistedOpen + rest;
    assert !IsPrefix(head, line) by {
      assert line[0] == 'E';
      assert head[0] == now[0];
      NotPrefixByFirst(head, line);
    }
    assert IsPrefix(UnlistedOpen, line) && line[|UnlistedOpen|..] == rest by {
      assert line[..|UnlistedOpen|] == UnlistedOpen;
    }
  }

  /** The line of an unlisted type reads back as its type's text and data. */
  lemma {:induction false} ReadUnlistedEventLine(now: string, name: string, data: string)
    requires |now| > 0 && now[0] != 'E'
    requires ']' !in name
    ensures ReadEventLine(now, EventLine(now, Unlisted(name), data)) == Some(LogEntry(Unlisted(name), data))
  {
    var rest := name + UnlistedClose + data;
    assert EventLine(now, Unlisted(name), data) == UnlistedOpen + rest;
    assert ReadEventLine(now, UnlistedOpen + rest) == Some(LogEntry(Unlisted(name), data)) by {
      assert ReadOpened(rest) == Some(LogEntry(Unlisted(name), data)) by {
        CutAfter(name, UnlistedClose, data);
      }
      ReadOpenedLine(now, rest);
    }
  }

  /** Every line eventToLog writes can be read back: the event's type, and
      its data when the type carries data. The time must not begin with
      'E' (an RFC 1123 date begins with a day name) and an unlisted type's
      text must not hold ']'. */
  lemma {:induction false} EventLineRoundTrip(now: string, t: EventType, data: string)
    requires |now| > 0 && now[0] != 'E'
    requires t.Unlisted? ==> ']' !in t.name
    ensures ReadEventLine(now, EventLine(now, t, data)) ==
      Some(LogEntry(t, if t == AssistantTurnStart || t == AssistantTurnEnd then "" else data))
  {
    match t
    case AssistantTurnStart =>
      ReadHeadedLine(now, TurnStarted);
    case AssistantTurnEnd =>
      ReadHeadedLine(now, TurnEnded);
    case Unlisted(name) =>
      ReadUnlistedEventLine(now, name, data);
    case _ =>
      ReadLabelledEventLine(now, t, data);
  }

  /** Lines written at the same time tell their events apart: distinct types
      give distinct lines, and a data-carrying type's line fixes its data. */
  lemma {:induction false} EventLineInjective(now: string, t1: EventType, d1: string, t2: EventType, d2: string)
    requires |now| > 0 && now[0] != 'E'
    requires t1.Unlisted? ==> ']' !in t1.name
    requires t2.Unlisted? ==> ']' !in t2.name
    requires EventLine(now, t1, d1) == EventLine(now, t2, d2)
    ensures t1 == t2
    ensures t1 != AssistantTurnStart && t1 != AssistantTurnEnd ==> d1 == d2
  {
    EventLineRoundTrip(now, t1, d1);
    EventLineRoundTrip(now, t2, d2);
  }

  /** The empty line written for an event whose data cannot be rendered
      reads back as no entry at all: its type is lost. */
  lemma {:induction false} UnrenderedLineReadsNothing(now: string)
    ensures ReadEventLine(now, "") == None
  {
  }

  // ---------------------------------------------------------------------
  // RunCopilot
  // ---------------------------------------------------------------------

  /** The options the client is created with. */
  datatype ClientOptions = ClientOptions(cwd: string, logLevel: string, env: seq<string>, gitHubToken: Option<string>)

  /** The configuration the session is created with. */
  datatype SessionConfig = SessionConfig(
    model: string,
    workingDirectory: string,
    availableTools: seq<string>,
    systemMessage: Option<string>,
    mcpServers: map<string, McpServer>,
    skillDirectories: seq<string>)

  /** The result of appending one line to the log file. */
  datatype AppendStatus = Appended | OpenFailed(openError: string) | WriteFailed(writeError: string)

  /** One event handed to the log: the time it was formatted at, the event,
      and what the append did. */
  datatype Delivery = Delivery(now: string, event: SessionEvent, status: AppendStatus)

  /** The results of the SDK and file system calls, in the order they happen:
      the client start, the session creation, the events the listener
      receives while the prompt is being answered, the send, and the final
      response with its own append. */
  datatype Environment = Environment(
    startError: Option<string>,
    sessionError: Option<string>,
    streamed: seq<Delivery>,
    sendError: Option<string>,
    response: Option<Delivery>)

  const StartErrorPrefix := "An error occurred while starting the client: "
  const SessionErrorPrefix := "An error occurred while creating a new session: "
  const OpenErrorPrefix := "An error occurred while opening the log file: "
  const WriteErrorPrefix := "An error occurred while writing to the log file: "
  const SendErrorPrefix := "An error occurred while sending prompt to session: "

  /** The deliveries whose append succeeded, in order. */
  function AppendedDeliveries(ds: seq<Delivery>): (r: seq<Delivery>)
    ensures |r| <= |ds|
    decreases |ds|
  {
    if |ds| == 0 then []
    else
      var last := |ds| - 1;
      AppendedDeliveries(ds[..last]) + (if ds[last].status.Appended? then [ds[last]] else [])
  }

  /** Every delivery is written when every append succeeds: nothing is
      skipped and repeated events are not merged. */
  lemma {:induction false} AllAppended(ds: seq<Delivery>)
    requires forall i | 0 <= i < |ds| :: ds[i].status.Appended?
    ensures AppendedDeliveries(ds) == ds
    decreases |ds|
  {
    if |ds| > 0 {
      AllAppended(ds[..|ds| - 1]);
      assert ds == ds[..|ds| - 1] + [ds[|ds| - 1]];
    }
  }

  /** `lines` are the log lines of the deliveries whose append succeeded. */
  ghost predicate LogsDeliveries(ds: seq<Delivery>, lines: seq<string>)
  {
    var appended := AppendedDeliveries(ds);
    |lines| == |appended| &&
    forall j | 0 <= j < |lines| :: IsLogLine(appended[j].now, appended[j].event, lines[j])
  }

  /** The log line of a failed append. */
  function AppendFailureLog(status: AppendStatus): string
    requires !status.Appended?
  {
    match status
    case OpenFailed(e) => OpenErrorPrefix + e
    case WriteFailed(e) => WriteErrorPrefix + e
  }

  /** The error a failed append of the final response makes the activity return. */
  function AppendError(status: AppendStatus): (r: Option<string>)
    ensures r.None? <==> status.Appended?
  {
    match status
    case Appended => None
    case OpenFailed(e) => Some(e)
    case WriteFailed(e) => Some(e)
  }

  /** The failure logs of the deliveries whose append failed, in order. */
  function FailureLogs(ds: seq<Delivery>): (r: seq<string>)
    ensures |r| + |AppendedDeliveries(ds)| == |ds|
    decreases |ds|
  {
    if |ds| == 0 then []
    else
      var last := |ds| - 1;
      FailureLogs(ds[..last]) + (if ds[last].status.Appended? then [] else [AppendFailureLog(ds[last].status)])
  }

  /** What the activity logs once the session exists, when the listener has
      handled every streamed event before the send returns: the streamed
      events' failed appends, the send error, then the final append's failure. */
  function SessionLog(env: Environment): seq<string>
  {
    FailureLogs(env.streamed)
    + (if env.sendError.Some? then [SendErrorPrefix + env.sendError.value] else [])
    + (if env.response.Some? && !env.response.value.status.Appended?
       then [AppendFailureLog(env.response.value.status)] else [])
  }

  /** The listener: each event is converted and appended; a failure is only
      logged, and the next event is handled as usual. */
  method Listen(ds: seq<Delivery>) returns (lines: seq<string>, logged: seq<string>)
    ensures LogsDeliveries(ds, lines)
    ensures logged == FailureLogs(ds)
    ensures |lines| + |logged| == |ds|
  {
    lines, logged := [], [];
    for i := 0 to |ds|
      invariant LogsDeliveries(ds[..i], lines)
      invariant logged == FailureLogs(ds[..i])
    {
      assert ds[..i + 1][..i] == ds[..i];
      assert FailureLogs(ds[..i + 1]) == FailureLogs(ds[..i])
        + (if ds[i].status.Appended? then [] else [AppendFailureLog(ds[i].status)]);
      var line, _ := EventToLog(ds[i].now, ds[i].event);
      if ds[i].status.Appended? {
        lines := lines + [line];
      } else {
        logged := logged + [AppendFailureLog(ds[i].status)];
      }
    }
    assert ds[..|ds|] == ds;
  }

  /** `name` names a local or a remote server of the task. */
  predicate IsServer(task: CopilotInput, name: string)
  {
    name in LocalServers(task) || name in RemoteServers(task)
  }

  /** The server GetMcpServers keeps under `name`: the remote one, if any. */
  function MergedServer(task: CopilotInput, name: string): McpServer
    requires IsServer(task, name)
  {
    if name in RemoteServers(task) then Remote(RemoteServers(task)[name]) else Local(LocalServers(task)[name])
  }

  /** The merged servers the session keeps: those the type test accepts. */
  method KeepServers(servers: Option<map<string, McpServer>>, isGenericMap: McpServer -> bool)
    returns (kept: map<string, McpServer>)
    ensures servers.None? ==> kept == map[]
    ensures servers.Some? ==> forall name ::
      name in kept <==> name in servers.value && isGenericMap(servers.value[name])
    ensures forall name | name in kept :: servers.Some? && kept[name] == servers.value[name]
  {
    kept := map[];
    if servers.None? {
      return;
    }
    var all := servers.value;
    var pending := all.Keys;
    while pending != {}
      invariant forall name | name in pending :: name in all
      invariant forall name | name in kept :: name in all && name !in pending && kept[name] == all[name]
      invariant forall name | name in all && name !in pending :: name in kept <==> isGenericMap(all[name])
      decreases |pending|
    {
      var name :| name in pending;
      if isGenericMap(all[name]) {
        kept := kept[name := all[name]];
      }
      pending := pending - {name};
    }
  }

  /** RunCopilot: check the log file, start the client, create the session
      with the task's settings (defaults filled in), then send the prompt
      while the listener logs events, and append the final response. Only
      the log-file check, the start, the session creation and the final
      append can fail the activity; a failed send is only logged. */
  method RunCopilot(task: CopilotInput, isGenericMap: McpServer -> bool, env: Environment)
    returns (err: Option<string>, client: Option<ClientOptions>, session: Option<SessionConfig>,
             sendTimeout: Option<Int64>, sentPrompt: Option<string>, lines: seq<string>, logged: seq<string>)
    // The log file is checked before anything is created.
    ensures task.logFile == "" ==>
      err == Some(EmptyLogFileError) && client == None && session == None && lines == [] && logged == []
    // The client gets the task's settings; the token only when it is set.
    ensures task.logFile != "" ==> client.Some?
    ensures client.Some? ==>
      && client.value.cwd == task.cwd && client.value.logLevel == task.logLevel && client.value.env == task.env
      && (client.value.gitHubToken.Some? <==> task.gitHubToken != "")
      && (client.value.gitHubToken.Some? ==> client.value.gitHubToken.value == task.gitHubToken)
    ensures task.logFile != "" && env.startError.Some? ==>
      err == Some(StartErrorPrefix + env.startError.value) && session == None && lines == [] && logged == []
    // The session gets the defaulted model and system message.
    ensures session.Some? <==> task.logFile != "" && env.startError.None?
    ensures session.Some? ==>
      && (task.aiModel == "" ==> session.value.model == DefaultAiModel)
      && (task.aiModel != "" ==> session.value.model == task.aiModel)
      && (session.value.systemMessage.None? <==> task.systemPrompt == "")
      && (session.value.systemMessage.Some? ==> session.value.systemMessage.value == task.systemPrompt)
      && session.value.workingDirectory == task.cwd
      && session.value.availableTools == task.allowedTools
      && session.value.skillDirectories == task.skills
    ensures session.Some? ==> forall name ::
      name in session.value.mcpServers <==> IsServer(task, name) && isGenericMap(MergedServer(task, name))
    ensures session.Some? ==> forall name | name in session.value.mcpServers ::
      session.value.mcpServers[name] == MergedServer(task, name)
    ensures session.Some? && env.sessionError.Some? ==>
      err == Some(SessionErrorPrefix + env.sessionError.value) && sendTimeout == None && lines == [] && logged == []
    // The task's prompt is sent, with the defaulted timeout.
    ensures sendTimeout.Some? <==> session.Some? && env.sessionError.None?
    ensures sentPrompt.Some? <==> sendTimeout.Some?
    ensures sentPrompt.Some? ==> sentPrompt.value == task.prompt
    ensures sendTimeout.Some? ==>
      && (task.timeout <= 0 ==> sendTimeout.value == DefaultTimeout)
      && (task.timeout > 0 ==> sendTimeout.value == task.timeout)
      && sendTimeout.value > 0
    // Every event delivered with a successful append is written, in order,
    // and every failed append is logged; the outcome depends on the final
    // append alone, not on the send.
    ensures sendTimeout.Some? ==>
      && LogsDeliveries(Deliveries(env), lines)
      && err == (if env.response.Some? then AppendError(env.response.value.status) else None)
      && logged == SessionLog(env)
      && (env.sendError.Some? ==> SendErrorPrefix + env.sendError.value in logged)
  {
    err, client, session, sendTimeout, sentPrompt, lines, logged := None, None, None, None, None, [], [];
    var recordFile := GetLogFile(task);
    if recordFile.Err? {
      err := Some(recordFile.error);
      return;
    }
    var options := ClientOptions(task.cwd, task.logLevel, task.env, None);
    if task.gitHubToken != "" {
      options := options.(gitHubToken := Some(task.gitHubToken));
    }
    client := Some(options);
    if env.startError.Some? {
      err := Some(StartErrorPrefix + env.startError.value);
      return;
    }

    var model: string;
    if task.aiModel == "" {
      model := DefaultAiModel;
    } else {
      model := task.aiModel;
    }

    var systemPrompt: Option<string>;
    if task.systemPrompt == "" {
      systemPrompt := None;
    } else {
      systemPrompt := Some(task.systemPrompt);
    }

    var servers := GetMcpServers(task);
    var mcpServers := KeepServers(servers, isGenericMap);
    assert forall name :: name in mcpServers <==> IsServer(task, name) && isGenericMap(MergedServer(task, name)) by {
      forall name
        ensures name in mcpServers <==> IsServer(task, name) && isGenericMap(MergedServer(task, name))
      {
        if servers.None? {
          assert name !in LocalServers(task).Keys + RemoteServers(task).Keys;
        }
      }
    }

    var timeout: Int64;
    if task.timeout <= 0 {
      timeout := DefaultTimeout;
    } else {
      timeout := task.timeout;
    }

    session := Some(SessionConfig(model, task.cwd, task.allowedTools, systemPrompt, mcpServers, task.skills));
    if env.sessionError.Some? {
      err := Some(SessionErrorPrefix + env.sessionError.value);
      return;
    }

    sendTimeout, sentPrompt := Some(timeout), Some(task.prompt);
    err, lines, logged := Converse(env);
  }

  /** The deliveries of a session: the streamed events, then the response. */
  function Deliveries(env: Environment): seq<Delivery>
  {
    env.streamed + (if env.response.Some? then [env.response.value] else [])
  }

  /** Once the session exists: the listener logs the streamed events while
      the prompt is answered, a failed send is logged, and the response, if
      any, is appended; only that last append can fail the activity. */
  method Converse(env: Environment) returns (err: Option<string>, lines: seq<string>, logged: seq<string>)
    ensures LogsDeliveries(Deliveries(env), lines)
    ensures err == if env.response.Some? then AppendError(env.response.value.status) else None
    ensures logged == SessionLog(env)
    ensures env.sendError.Some? ==> SendErrorPrefix + env.sendError.value in logged
  {
    err := None;
    lines, logged := Listen(env.streamed);
    if env.sendError.Some? {
      logged := logged + [SendErrorPrefix + env.sendError.value];
    }

    if env.response.Some? {
      var final := env.response.value;
      var line, _ := EventToLog(final.now, final.event);
      FinalDelivery(env.streamed, final, lines, line);
      if final.status.Appended? {
        lines := lines + [line];
      } else {
        logged := logged + [AppendFailureLog(final.status)];
        err := AppendError(final.status);
      }
    } else {
      assert env.streamed + [] == env.streamed;
    }
  }

  /** Appending one more delivery extends the logged lines by its line when
      its append succeeds, and leaves them as they are otherwise. */
  lemma {:induction false} FinalDelivery(ds: seq<Delivery>, d: Delivery, lines: seq<string>, line: string)
    requires LogsDeliveries(ds, lines)
    requires IsLogLine(d.now, d.event, line)
    ensures d.status.Appended? ==> LogsDeliveries(ds + [d], lines + [line])
    ensures !d.status.Appended? ==> LogsDeliveries(ds + [d], lines)
  {
    assert (ds + [d])[..|ds|] == ds;
  }
}
