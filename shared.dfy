/** shared/models.go: the task description, the batch, and the checks run on
    them before anything is dispatched. */
module Shared {
  import opened Wrappers

  /** Go's int64, the type of the timeout field. */
  newtype Int64 = x: int | -0x8000_0000_0000_0000 <= x < 0x8000_0000_0000_0000

  const DefaultAiModel: string := "gpt-4.1"
  const DefaultTimeout: Int64 := 120

  const EmptyLogFileError: string := "log_file cannot be empty"
  const SameCwdError: string :=
    "cannot use the same working directory for mulitple tasks because of potential race conditions"
  const SameLogFileError: string :=
    "cannot use the same log file for two or more tasks because of potential race conditions"

  /** The SDK's server configurations are carried as opaque settings. */
  datatype LocalServerConfig = LocalServerConfig(settings: map<string, string>)
  datatype RemoteServerConfig = RemoteServerConfig(settings: map<string, string>)

  /** One entry of the merged server map: Go stores either SDK type under `any`. */
  datatype McpServer = Local(local: LocalServerConfig) | Remote(remote: RemoteServerConfig)

  /** CopilotInput: one task of the configuration file. A `None` server map is
      a nil Go map (the key absent from the JSON). */
  datatype CopilotInput = CopilotInput(
    logFile: string,
    cwd: string,
    logLevel: string,
    env: seq<string>,
    prompt: string,
    gitHubToken: string,
    aiModel: string,
    systemPrompt: string,
    allowedTools: seq<string>,
    skills: seq<string>,
    localMcpServers: Option<map<string, LocalServerConfig>>,
    remoteMcpServers: Option<map<string, RemoteServerConfig>>,
    timeout: Int64)

  /** CopilotTasks: the batch, in configuration-file order. */
  datatype CopilotTasks = CopilotTasks(tasks: seq<CopilotInput>)

  /** The local servers of a task; ranging over a nil map visits nothing. */
  function LocalServers(c: CopilotInput): map<string, LocalServerConfig>
  {
    if c.localMcpServers.Some? then c.localMcpServers.value else map[]
  }

  /** The remote servers of a task; ranging over a nil map visits nothing. */
  function RemoteServers(c: CopilotInput): map<string, RemoteServerConfig>
  {
    if c.remoteMcpServers.Some? then c.remoteMcpServers.value else map[]
  }

  /** A map is non-empty exactly when it has a key. */
  lemma {:induction false} NonEmptyMap<K, V>(m: map<K, V>)
    ensures |m| > 0 <==> m.Keys != {}
  {
    if m.Keys != {} {
      var k :| k in m.Keys;
      assert |m.Keys| >= 1;
    }
  }

  /** GetMcpServers: the local servers, then the remote servers, written into
      one map, so a remote server replaces a local one of the same name; nil
      when that map ends up empty. */
  method GetMcpServers(c: CopilotInput) returns (servers: Option<map<string, McpServer>>)
    ensures servers.None? <==> LocalServers(c).Keys + RemoteServers(c).Keys == {}
    ensures servers.Some? ==> forall name ::
      name in servers.value <==> name in LocalServers(c) || name in RemoteServers(c)
    ensures servers.Some? ==> forall name | name in RemoteServers(c) ::
      servers.value[name] == Remote(RemoteServers(c)[name])
    ensures servers.Some? ==> forall name | name in LocalServers(c) && name !in RemoteServers(c) ::
      servers.value[name] == Local(LocalServers(c)[name])
  {
    var merged: map<string, McpServer> := map[];
    if c.localMcpServers.Some? {
      var local := c.localMcpServers.value;
      var pending := local.Keys;
      while pending != {}
        invariant pending <= local.Keys
        invariant forall name :: name in merged <==> name in local && name !in pending
        invariant forall name | name in merged :: merged[name] == Local(local[name])
        decreases pending
      {
        var name :| name in pending;
        merged := merged[name := Local(local[name])];
        pending := pending - {name};
      }
    }
    assert forall name :: name in merged <==> name in LocalServers(c);
    if c.remoteMcpServers.Some? {
      var remote := c.remoteMcpServers.value;
      var pending := remote.Keys;
      while pending != {}
        invariant pending <= remote.Keys
        invariant forall name :: name in merged <==> name in LocalServers(c) || (name in remote && name !in pending)
        invariant forall name | name in remote && name !in pending :: merged[name] == Remote(remote[name])
        invariant forall name | name in LocalServers(c) && (name !in remote || name in pending) ::
          merged[name] == Local(LocalServers(c)[name])
        decreases pending
      {
        var name :| name in pending;
        merged := merged[name := Remote(remote[name])];
        pending := pending - {name};
      }
    }
    assert forall name :: name in merged <==> name in LocalServers(c) || name in RemoteServers(c);
    NonEmptyMap(merged);
    if |merged| > 0 {
      servers := Some(merged);
    } else {
      servers := None;
    }
  }

  /** GetLogFile: the log file, or an error when it is empty. */
  function GetLogFile(c: CopilotInput): (r: Result<string>)
    ensures r.Err? <==> c.logFile == ""
    ensures r.Err? ==> r.error == EmptyLogFileError
    ensures r.Ok? ==> r.value == c.logFile
  {
    if c.logFile == "" then Err(EmptyLogFileError) else Ok(c.logFile)
  }

  /** No two tasks of the batch share a working directory or a log file. */
  predicate NoSharedResources(tasks: seq<CopilotInput>)
  {
    forall i, j | 0 <= i < j < |tasks| :: tasks[i].cwd != tasks[j].cwd && tasks[i].logFile != tasks[j].logFile
  }

  predicate RepeatsCwd(tasks: seq<CopilotInput>, i: nat)
    requires i < |tasks|
  {
    exists j | 0 <= j < i :: tasks[j].cwd == tasks[i].cwd
  }

  predicate RepeatsLogFile(tasks: seq<CopilotInput>, i: nat)
    requires i < |tasks|
  {
    exists j | 0 <= j < i :: tasks[j].logFile == tasks[i].logFile
  }

  /** Task `i` is the first task of the batch that repeats an earlier task's
      working directory or log file. */
  predicate IsFirstCollision(tasks: seq<CopilotInput>, i: nat)
  {
    && i < |tasks|
    && (RepeatsCwd(tasks, i) || RepeatsLogFile(tasks, i))
    && forall k | 0 <= k < i :: !RepeatsCwd(tasks, k) && !RepeatsLogFile(tasks, k)
  }

  /** The message for a colliding task: the working directory is checked first. */
  function CollisionMessage(tasks: seq<CopilotInput>, i: nat): string
    requires i < |tasks|
  {
    if RepeatsCwd(tasks, i) then SameCwdError else SameLogFileError
  }

  /** The outcome of validating a batch, defined over its prefixes: a batch
      fails as its longest proper prefix does, else as its last task does. */
  function ValidationError(tasks: seq<CopilotInput>): (r: Option<string>)
    ensures r.Some? ==> r.value == SameCwdError || r.value == SameLogFileError
    ensures |tasks| <= 1 ==> r.None?
    decreases |tasks|
  {
    if |tasks| == 0 then None
    else
      var last := |tasks| - 1;
      var earlier := ValidationError(tasks[..last]);
      if earlier.Some? then earlier
      else if RepeatsCwd(tasks, last) then Some(SameCwdError)
      else if RepeatsLogFile(tasks, last) then Some(SameLogFileError)
      else None
  }

  /** Validation fails exactly when two tasks share a working directory or a
      log file (the empty string collides like any other value). */
  lemma {:induction false} ValidationOkIffNoSharedResources(tasks: seq<CopilotInput>)
    ensures ValidationError(tasks).None? <==> NoSharedResources(tasks)
    decreases |tasks|
  {
    if |tasks| > 0 {
      var last := |tasks| - 1;
      var prefix := tasks[..last];
      ValidationOkIffNoSharedResources(prefix);
      if ValidationError(tasks).None? {
        forall i, j | 0 <= i < j < |tasks|
          ensures tasks[i].cwd != tasks[j].cwd && tasks[i].logFile != tasks[j].logFile
        {
          if j < last {
            assert prefix[i] == tasks[i] && prefix[j] == tasks[j];
          } else {
            assert !RepeatsCwd(tasks, last) && !RepeatsLogFile(tasks, last);
          }
        }
      } else if ValidationError(prefix).None? {
        assert NoSharedResources(prefix);
        if RepeatsCwd(tasks, last) {
          var j :| 0 <= j < last && tasks[j].cwd == tasks[last].cwd;
        } else {
          var j :| 0 <= j < last && tasks[j].logFile == tasks[last].logFile;
        }
      } else {
        var i, j :| 0 <= i < j < |prefix| &&
          !(prefix[i].cwd != prefix[j].cwd && prefix[i].logFile != prefix[j].logFile);
        assert prefix[i] == tasks[i] && prefix[j] == tasks[j];
      }
    }
  }

  /** A failing batch fails with the message of its first colliding task. */
  lemma {:induction false} ValidationErrorIsFirstCollision(tasks: seq<CopilotInput>)
    ensures ValidationError(tasks).Some? ==>
      exists i :: IsFirstCollision(tasks, i) && ValidationError(tasks) == Some(CollisionMessage(tasks, i))
    decreases |tasks|
  {
    if |tasks| > 0 && ValidationError(tasks).Some? {
      var last := |tasks| - 1;
      var prefix := tasks[..last];
      if ValidationError(prefix).Some? {
        ValidationErrorIsFirstCollision(prefix);
        var i :| IsFirstCollision(prefix, i) && ValidationError(prefix) == Some(CollisionMessage(prefix, i));
        assert IsFirstCollision(tasks, i) && CollisionMessage(prefix, i) == CollisionMessage(tasks, i) by {
          RepeatsOfPrefix(tasks, last);
        }
      } else {
        NoRepeatsBelowValidPrefix(tasks, last);
        assert IsFirstCollision(tasks, last);
      }
    }
  }

  /** Repeats inside a prefix are the repeats of the whole batch. */
  lemma {:induction false} RepeatsOfPrefix(tasks: seq<CopilotInput>, n: nat)
    requires n <= |tasks|
    ensures forall k | 0 <= k < n ::
      (RepeatsCwd(tasks[..n], k) <==> RepeatsCwd(tasks, k)) &&
      (RepeatsLogFile(tasks[..n], k) <==> RepeatsLogFile(tasks, k))
  {
    forall k | 0 <= k < n
      ensures (RepeatsCwd(tasks[..n], k) <==> RepeatsCwd(tasks, k)) &&
              (RepeatsLogFile(tasks[..n], k) <==> RepeatsLogFile(tasks, k))
    {
      if RepeatsCwd(tasks, k) {
        var j :| 0 <= j < k && tasks[j].cwd == tasks[k].cwd;
        assert tasks[..n][j] == tasks[j];
      }
      if RepeatsLogFile(tasks, k) {
        var j :| 0 <= j < k && tasks[j].logFile == tasks[k].logFile;
        assert tasks[..n][j] == tasks[j];
      }
    }
  }

  /** Once a prefix fails, later tasks do not change the error. */
  lemma {:induction false} ValidationErrorSticks(tasks: seq<CopilotInput>, n: nat, msg: string)
    requires n <= |tasks|
    requires ValidationError(tasks[..n]) == Some(msg)
    ensures ValidationError(tasks) == Some(msg)
    decreases |tasks| - n
  {
    if n < |tasks| {
      var last := |tasks| - 1;
      var prefix := tasks[..last];
      assert prefix[..n] == tasks[..n];
      ValidationErrorSticks(prefix, n, msg);
    } else {
      assert tasks[..n] == tasks;
    }
  }

  /** Appending one task to a batch that validates: the new task decides the
      outcome, working directory first. */
  lemma {:induction false} NextTaskDecides(tasks: seq<CopilotInput>, i: nat)
    requires i < |tasks|
    requires ValidationError(tasks[..i]) == None
    ensures ValidationError(tasks[..i + 1]) ==
      if RepeatsCwd(tasks, i) then Some(SameCwdError)
      else if RepeatsLogFile(tasks, i) then Some(SameLogFileError)
      else None
  {
    var prefix := tasks[..i + 1];
    assert prefix[..i] == tasks[..i];
    RepeatsOfPrefix(tasks, i + 1);
  }

  /** A batch whose prefix validates and whose next task repeats an earlier
      one fails with that task's message: that task is its first collision. */
  lemma {:induction false} ValidationStopsAt(tasks: seq<CopilotInput>, i: nat)
    requires i < |tasks|
    requires ValidationError(tasks[..i]) == None
    requires RepeatsCwd(tasks, i) || RepeatsLogFile(tasks, i)
    ensures ValidationError(tasks) == Some(CollisionMessage(tasks, i))
    ensures IsFirstCollision(tasks, i)
    ensures !NoSharedResources(tasks)
  {
    var msg := CollisionMessage(tasks, i);
    NextTaskDecides(tasks, i);
    ValidationErrorSticks(tasks, i + 1, msg);
    NoRepeatsBelowValidPrefix(tasks, i);
    var j :| 0 <= j < i && (tasks[j].cwd == tasks[i].cwd || tasks[j].logFile == tasks[i].logFile);
    assert !(tasks[j].cwd != tasks[i].cwd && tasks[j].logFile != tasks[i].logFile);
  }

  /** Below a prefix that validates, no task repeats an earlier one. */
  lemma {:induction false} NoRepeatsBelowValidPrefix(tasks: seq<CopilotInput>, i: nat)
    requires i <= |tasks|
    requires ValidationError(tasks[..i]) == None
    ensures forall k | 0 <= k < i :: !RepeatsCwd(tasks, k) && !RepeatsLogFile(tasks, k)
  {
    var prefix := tasks[..i];
    ValidationOkIffNoSharedResources(prefix);
    forall k | 0 <= k < i
      ensures !RepeatsCwd(tasks, k) && !RepeatsLogFile(tasks, k)
    {
      forall j | 0 <= j < k
        ensures tasks[j].cwd != tasks[k].cwd && tasks[j].logFile != tasks[k].logFile
      {
        assert prefix[j] == tasks[j] && prefix[k] == tasks[k];
      }
    }
  }

  /** The working directories of the first `n` tasks. */
  function CwdsSeen(tasks: seq<CopilotInput>, n: nat): set<string>
    requires n <= |tasks|
  {
    set j | 0 <= j < n :: tasks[j].cwd
  }

  /** The log files of the first `n` tasks. */
  function LogFilesSeen(tasks: seq<CopilotInput>, n: nat): set<string>
    requires n <= |tasks|
  {
    set j | 0 <= j < n :: tasks[j].logFile
  }

  /** The next task repeats an earlier working directory or log file exactly
      when it is among those seen. */
  lemma {:induction false} SeenIffRepeats(tasks: seq<CopilotInput>, i: nat)
    requires i < |tasks|
    ensures tasks[i].cwd in CwdsSeen(tasks, i) <==> RepeatsCwd(tasks, i)
    ensures tasks[i].logFile in LogFilesSeen(tasks, i) <==> RepeatsLogFile(tasks, i)
  {
  }

  /** Seeing one more task adds its working directory and log file. */
  lemma {:induction false} SeenOneMore(tasks: seq<CopilotInput>, i: nat)
    requires i < |tasks|
    ensures CwdsSeen(tasks, i + 1) == CwdsSeen(tasks, i) + {tasks[i].cwd}
    ensures LogFilesSeen(tasks, i + 1) == LogFilesSeen(tasks, i) + {tasks[i].logFile}
  {
  }

  /** Validate: the tasks in order, each checked against the working
      directories and log files seen so far, stopping at the first repeat. */
  method Validate(t: CopilotTasks) returns (err: Option<string>)
    ensures err == ValidationError(t.tasks)
    ensures err.None? <==> NoSharedResources(t.tasks)
    ensures err.Some? ==> exists i :: IsFirstCollision(t.tasks, i) && err.value == CollisionMessage(t.tasks, i)
  {
    var tasks := t.tasks;
    var logFiles: map<string, nat> := map[];
    var cwds: map<string, nat> := map[];
    for i := 0 to |tasks|
      invariant ValidationError(tasks[..i]) == None
      invariant cwds.Keys == CwdsSeen(tasks, i)
      invariant logFiles.Keys == LogFilesSeen(tasks, i)
      invariant forall d | d in cwds :: cwds[d] < i
      invariant forall f | f in logFiles :: logFiles[f] < i
    {
      var task := tasks[i];
      SeenIffRepeats(tasks, i);
      if task.cwd in cwds {
        ValidationStopsAt(tasks, i);
        return Some(SameCwdError);
      }
      if task.logFile in logFiles {
        ValidationStopsAt(tasks, i);
        return Some(SameLogFileError);
      }
      NextTaskDecides(tasks, i);
      SeenOneMore(tasks, i);
      logFiles := logFiles[task.logFile := i];
      cwds := cwds[task.cwd := i];
    }
    assert tasks[..|tasks|] == tasks;
    ValidationOkIffNoSharedResources(tasks);
    err := None;
  }
}
