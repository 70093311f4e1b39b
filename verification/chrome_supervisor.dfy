/** Launch and supervision of one headless Chrome per automation task
    (`kill_existing_chrome_instances`, `start_chrome_with_debug_port`) and the
    process-wide registry `task_chrome_instances` they maintain.

    The operating system is replaced by oracles: which paths exist, which
    executables answer `--version`, whether the Chrome launch itself succeeds,
    and how each of the twenty readiness polls of `/json/version` ends. */
module ChromeSupervisor {
  import opened Wrappers
  import opened Text
  import opened Seqs
  import PortAllocator

  datatype ChromeStatus = Starting | Running

  /** Handle of a launched Chrome process. */
  datatype Process = Process(pid: nat)

  /** One registry entry: `{port, status}` plus the process once it is up. */
  datatype Instance = Instance(port: int, status: ChromeStatus, process: Option<Process>)

  // ------------------------------------------------------------ killing

  const RemoteDebuggingMarker := "remote-debugging-port"
  const ChromeMarker := "Google Chrome"

  /** The process id a `ps aux` line asks to kill: the line must mention both
      markers, and its second white-space separated column must read as an
      integer. */
  function PidOfLine(line: string): (r: Option<int>)
    ensures r.Some? ==> Contains(line, RemoteDebuggingMarker) && Contains(line, ChromeMarker)
    ensures r.Some? ==> |Words(line)| > 1 && ParseInt(Words(line)[1]) == r
  {
    if Contains(line, RemoteDebuggingMarker) && Contains(line, ChromeMarker) then
      var parts := Words(line);
      if |parts| > 1 then ParseInt(parts[1]) else None
    else None
  }

  /** The process ids killed for a listing, in line order. */
  function KillTargets(lines: seq<string>): seq<int>
  {
    if |lines| == 0 then []
    else
      (match PidOfLine(lines[0]) case Some(pid) => [pid] case None => []) + KillTargets(lines[1..])
  }

  /** A process id is killed exactly when some line of the listing yields it. */
  lemma {:induction false} KillTargetsExact(lines: seq<string>, pid: int)
    ensures pid in KillTargets(lines) <==> exists i :: 0 <= i < |lines| && PidOfLine(lines[i]) == Some(pid)
  {
    if |lines| > 0 {
      KillTargetsExact(lines[1..], pid);
      if exists i :: 0 <= i < |lines[1..]| && PidOfLine(lines[1..][i]) == Some(pid) {
        var i :| 0 <= i < |lines[1..]| && PidOfLine(lines[1..][i]) == Some(pid);
        assert PidOfLine(lines[i + 1]) == Some(pid);
      }
      if exists i :: 0 <= i < |lines| && PidOfLine(lines[i]) == Some(pid) {
        var i :| 0 <= i < |lines| && PidOfLine(lines[i]) == Some(pid);
        if i > 0 {
          assert lines[1..][i - 1] == lines[i];
        }
      }
    }
  }

  /** The targets from line `i` on: that line's process id, if any, then
      the rest. */
  lemma KillTargetsFrom(lines: seq<string>, i: nat)
    requires i < |lines|
    ensures KillTargets(lines[i..])
            == (if PidOfLine(lines[i]).Some? then [PidOfLine(lines[i]).value] else []) + KillTargets(lines[i + 1..])
  {
    assert lines[i..][0] == lines[i];
    assert lines[i..][1..] == lines[i + 1..];
  }

  /** Collecting line `i`'s process id keeps what is collected, followed by
      the targets of the lines still to walk, equal to all the targets. */
  lemma KillStep(lines: seq<string>, i: nat, killed: seq<int>)
    requires i < |lines|
    requires killed + KillTargets(lines[i..]) == KillTargets(lines)
    ensures var pid := PidOfLine(lines[i]);
            (if pid.Some? then killed + [pid.value] else killed) + KillTargets(lines[i + 1..]) == KillTargets(lines)
  {
    KillTargetsFrom(lines, i);
    var rest := KillTargets(lines[i + 1..]);
    match PidOfLine(lines[i])
    case Some(pid) =>
      AppendAssoc(killed, [pid], rest);
    case None =>
      assert [] + rest == rest;
  }

  /** Walks the `ps aux` output line by line and collects the id of every
      process to kill, in order. */
  method KillExistingChromeInstances(psOutput: string) returns (killed: seq<int>)
    ensures killed == KillTargets(Split(psOutput, '\n'))
  {
    var lines := Split(psOutput, '\n');
    killed := [];
    var i := 0;
    while i < |lines|
      invariant 0 <= i <= |lines|
      invariant killed + KillTargets(lines[i..]) == KillTargets(lines)
    {
      KillStep(lines, i, killed);
      var pid := PidOfLine(lines[i]);
      if pid.Some? {
        killed := killed + [pid.value];
      }
      i := i + 1;
    }
    assert lines[|lines|..] == [];
  }

  // ------------------------------------------------------------ executable

  /** The candidate executables, tried in this order. */
  const ChromePaths: seq<string> := [
    "/Applications/Google Chrome.app/Contents/MacOS/Google Chrome",
    "/usr/bin/google-chrome",
    "/usr/bin/chromium-browser",
    "chrome",
    "chromium"
  ]

  /** What the operating system answers during a launch. */
  datatype Environment = Environment(
    bindable: int -> bool,        // the port binds
    pathExists: string -> bool,   // `os.path.exists`
    versionRuns: string -> bool,  // spawning `<path> --version` does not raise
    launch: Result<Process, string>, // the Chrome launch, or the text of what it raised
    pollOk: nat -> bool)          // readiness poll number i answered 200

  /** A path is tried when it exists or is one of the bare command names, and
      chosen when its `--version` probe can be spawned (its exit code is not
      looked at). */
  predicate Usable(env: Environment, path: string) {
    (env.pathExists(path) || path == "chrome" || path == "chromium") && env.versionRuns(path)
  }

  /** The first usable candidate executable. */
  method FindChrome(env: Environment) returns (exe: Option<string>)
    ensures exe.Some? ==> exists k :: 0 <= k < |ChromePaths| && ChromePaths[k] == exe.value &&
                                     Usable(env, exe.value) &&
                                     forall j :: 0 <= j < k ==> !Usable(env, ChromePaths[j])
    ensures exe.None? <==> forall k :: 0 <= k < |ChromePaths| ==> !Usable(env, ChromePaths[k])
  {
    var k := 0;
    while k < |ChromePaths|
      invariant 0 <= k <= |ChromePaths|
      invariant forall j :: 0 <= j < k ==> !Usable(env, ChromePaths[j])
    {
      var path := ChromePaths[k];
      if (env.pathExists(path) || path in ["chrome", "chromium"]) && env.versionRuns(path) {
        return Some(path);
      }
      k := k + 1;
    }
    return None;
  }

  /** How many times `/json/version` is polled, one second apart. */
  const ReadinessPolls: nat := 20

  /** Chrome counts as ready when one of the twenty polls answers 200. */
  method AwaitCdp(pollOk: nat -> bool) returns (ready: bool)
    ensures ready <==> exists i :: 0 <= i < ReadinessPolls && pollOk(i)
  {
    var i := 0;
    while i < ReadinessPolls
      invariant 0 <= i <= ReadinessPolls
      invariant forall j :: 0 <= j < i ==> !pollOk(j)
    {
      if pollOk(i) {
        return true;
      }
      i := i + 1;
    }
    return false;
  }

  // ------------------------------------------------------------ launching

  /** How a launch ends: the process and port, or the error raised (with the
      port already chosen where there was one). */
  datatype StartOutcome =
    | Started(process: Process, port: int)
    | NoFreePort
    | ChromeNotFound(port: int)
    | LaunchFailed(port: int, reason: string)
    | CdpNotReady(port: int, terminated: Process)

  const ChromeNotFoundMessage := "Chrome not found. Please install Chrome or Chromium."
  const CdpFailedMessage := "Chrome failed to start with CDP"

  /** The `task_chrome_instances` dictionary.  A task id of "" stands for a
      missing or empty (falsy) task id, which is never recorded. */
  class ChromeRegistry {
    var instances: map<string, Instance>

    constructor()
      ensures instances == map[]
    {
      instances := map[];
    }

    /** `start_chrome_with_debug_port`.  The entry becomes `starting` before
        the executable search and stays behind if no executable is found or
        the launch raises; twenty failed polls terminate the process and
        delete the entry; only success marks it `running` with its process. */
    method StartChrome(taskId: string, requestedPort: Option<int>, env: Environment)
      returns (outcome: StartOutcome)
      modifies this
      ensures outcome.NoFreePort? <==>
                requestedPort.None? && PortAllocator.WindowExhausted(PortAllocator.DefaultStartPort, env.bindable)
      ensures outcome.NoFreePort? ==> instances == old(instances)
      ensures !outcome.NoFreePort? && requestedPort.Some? ==> outcome.port == requestedPort.value
      ensures !outcome.NoFreePort? && requestedPort.None? ==>
                PortAllocator.DefaultStartPort <= outcome.port < PortAllocator.DefaultStartPort + PortAllocator.ScanWidth &&
                env.bindable(outcome.port) &&
                forall p :: PortAllocator.DefaultStartPort <= p < outcome.port ==> !env.bindable(p)
      ensures outcome.ChromeNotFound? <==>
                !outcome.NoFreePort? && forall k :: 0 <= k < |ChromePaths| ==> !Usable(env, ChromePaths[k])
      ensures outcome.LaunchFailed? <==>
                !outcome.NoFreePort? && !outcome.ChromeNotFound? && env.launch.Failure?
      ensures outcome.ChromeNotFound? || outcome.LaunchFailed? ==>
                instances == if taskId != "" then old(instances)[taskId := Instance(outcome.port, Starting, None)]
                             else old(instances)
      ensures outcome.CdpNotReady? <==>
                !outcome.NoFreePort? && !outcome.ChromeNotFound? && env.launch.Success? &&
                forall i :: 0 <= i < ReadinessPolls ==> !env.pollOk(i)
      ensures outcome.CdpNotReady? ==>
                outcome.terminated == env.launch.value &&
                instances == if taskId != "" then old(instances) - {taskId} else old(instances)
      ensures outcome.Started? ==>
                outcome.process == env.launch.value &&
                instances == if taskId != "" then old(instances)[taskId := Instance(outcome.port, Running, Some(outcome.process))]
                             else old(instances)
    {
      var port: int;
      if requestedPort.Some? {
        port := requestedPort.value;
      } else {
        var found := PortAllocator.FindAvailablePort(PortAllocator.DefaultStartPort, env.bindable);
        if found.Failure? {
          return NoFreePort;
        }
        port := found.value;
      }
      if taskId != "" {
        instances := instances[taskId := Instance(port, Starting, None)];
      }
      var exe := FindChrome(env);
      if exe.None? {
        return ChromeNotFound(port);
      }
      if env.launch.Failure? {
        return LaunchFailed(port, env.launch.error);
      }
      var process := env.launch.value;
      var ready := AwaitCdp(env.pollOk);
      if !ready {
        if taskId != "" && taskId in instances {
          instances := instances - {taskId};
        }
        return CdpNotReady(port, process);
      }
      if taskId != "" {
        instances := instances[taskId := instances[taskId].(status := Running, process := Some(process))];
      }
      return Started(process, port);
    }
  }

  /** The text of the RuntimeError a failed launch raises. */
  function FailureMessage(outcome: StartOutcome): (m: Option<string>)
    ensures m.None? <==> outcome.Started?
    ensures outcome.LaunchFailed? ==> m == Some(outcome.reason)
  {
    match outcome
    case Started(_, _) => None
    case NoFreePort => Some(PortAllocator.NoPortMessage)
    case ChromeNotFound(_) => Some(ChromeNotFoundMessage)
    case LaunchFailed(_, reason) => Some(reason)
    case CdpNotReady(_, _) => Some(CdpFailedMessage)
  }
}
