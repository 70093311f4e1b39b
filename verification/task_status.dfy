/** The read-only HTTP endpoints over the task registry: `check_task_ready`,
    `get_task_instance`, `get_task_instances`, and the port and tab choice of
    `get_screenshot`.  Each is a function of the registry contents and of the
    DevTools probe, so none of them can change the registry. */
module TaskStatus {
  import opened Wrappers
  import opened Http
  import opened ChromeSupervisor
  import opened TabSelection
  import Text

  function StatusName(s: ChromeStatus): string {
    match s
    case Starting => "starting"
    case Running => "running"
  }

  // ------------------------------------------------------------ readiness

  /** The JSON body of `/api/task-ready/<task_id>`. */
  datatype ReadyReport = ReadyReport(ready: bool, status: string, message: string, tabsCount: Option<nat>)

  /** `check_task_ready`: the DevTools tab list is only consulted for a task
      whose browser is `running`. */
  function CheckTaskReady(instances: map<string, Instance>, taskId: string, probe: TabProbe): (r: ReadyReport)
    ensures r.ready <==> taskId in instances && instances[taskId].status == Running &&
                         probe.ProbeOk? && |probe.tabs| > 0
    ensures r.ready ==> r.status == "ready" && r.tabsCount == Some(|probe.tabs|)
    ensures !r.ready ==> r.tabsCount.None?
    ensures taskId !in instances ==> r.status == "not_started"
    ensures taskId in instances && instances[taskId].status != Running ==>
              r.status == StatusName(instances[taskId].status)
    ensures taskId in instances && instances[taskId].status == Running ==>
              r.status == (match probe
                           case ProbeRaised(_) => "connecting"
                           case ProbeNotOk => "not_accessible"
                           case ProbeOk(tabs) => if |tabs| > 0 then "ready" else "no_tabs")
  {
    if taskId !in instances then
      ReadyReport(false, "not_started", "Browser is starting up...", None)
    else
      var instance := instances[taskId];
      if instance.status != Running then
        ReadyReport(false, StatusName(instance.status), "Browser is starting up...", None)
      else
        match probe
        case ProbeRaised(_) => ReadyReport(false, "connecting", "Browser starting up...", None)
        case ProbeNotOk => ReadyReport(false, "not_accessible", "Browser starting up...", None)
        case ProbeOk(tabs) =>
          if |tabs| > 0 then ReadyReport(true, "ready", "Browser is ready", Some(|tabs|))
          else ReadyReport(false, "no_tabs", "Browser starting, no tabs yet...", None)
  }

  /** A task whose launch is still under way is reported with its own status
      whatever DevTools would answer. */
  lemma StartingTaskIsNeverReady(instances: map<string, Instance>, taskId: string, p1: TabProbe, p2: TabProbe)
    requires taskId in instances && instances[taskId].status == Starting
    ensures CheckTaskReady(instances, taskId, p1) == CheckTaskReady(instances, taskId, p2)
    ensures CheckTaskReady(instances, taskId, p1).status == "starting"
  {
  }

  // ------------------------------------------------------------ instances

  /** A registry entry as served to clients: the process handle is left out. */
  datatype PublicInstance = PublicInstance(port: int, status: string)

  function Public(i: Instance): PublicInstance {
    PublicInstance(i.port, StatusName(i.status))
  }

  /** `get_task_instance`: a copy of the entry without its process, or 404. */
  function GetTaskInstance(instances: map<string, Instance>, taskId: string): (r: Response<PublicInstance>)
    ensures r.Ok? <==> taskId in instances
    ensures r.Ok? ==> r.body.port == instances[taskId].port &&
                      r.body.status == StatusName(instances[taskId].status)
    ensures r.Error? ==> r.code == NotFound && r.message == "Task not found"
  {
    if taskId in instances then Ok(Public(instances[taskId])) else Error(NotFound, "Task not found")
  }

  /** The body of `/api/task-instances`. */
  datatype InstanceListing = InstanceListing(activeTasks: map<string, PublicInstance>, totalTasks: nat)

  /** `get_task_instances` as written: the registry is serialised as it is,
      process handles included, and a process handle is not JSON, so the
      handler fails with 500 as soon as one browser has started. */
  function GetTaskInstancesAsWritten(instances: map<string, Instance>): (r: Response<InstanceListing>)
    ensures r.Error? <==> exists t :: t in instances && instances[t].process.Some?
    ensures r.Ok? ==> r.body.totalTasks == |instances| && r.body.activeTasks.Keys == instances.Keys
  {
    if exists t :: t in instances && instances[t].process.Some? then
      Error(ServerError, "Object of type Process is not JSON serializable")
    else
      Ok(InstanceListing(map t | t in instances :: Public(instances[t]), |instances|))
  }

  /** The registry right after one successful launch cannot be listed. */
  lemma ListingFailsOnceABrowserRuns(taskId: string, port: int, p: Process)
    ensures GetTaskInstancesAsWritten(map[taskId := Instance(port, Running, Some(p))]).Error?
  {
    var m := map[taskId := Instance(port, Running, Some(p))];
    assert taskId in m && m[taskId].process.Some?;
  }

  /** `get_task_instances` as intended: every entry without its process, as
      `get_task_instance` serves them one at a time. */
  function GetTaskInstances(instances: map<string, Instance>): (r: InstanceListing)
    ensures r.totalTasks == |instances|
    ensures r.activeTasks.Keys == instances.Keys
    ensures forall t :: t in instances ==> GetTaskInstance(instances, t) == Ok(r.activeTasks[t])
  {
    InstanceListing(map t | t in instances :: Public(instances[t]), |instances|)
  }

  // ------------------------------------------------------------ screenshot target

  /** `get_screenshot` asks the task's own port, and port 9222 for a task it
      does not know. */
  function ScreenshotPort(instances: map<string, Instance>, taskId: string): (port: int)
    ensures taskId in instances ==> port == instances[taskId].port
    ensures taskId !in instances ==> port == FallbackPort
  {
    if taskId in instances then instances[taskId].port else FallbackPort
  }

  /** The port and tab `get_screenshot` goes on to capture, or its error
      answer.  `postError` is what the `requests.post` to the tab's
      `/json/runtime/evaluate`, made before the WebSocket URL is looked at,
      raised. */
  function ScreenshotTarget(instances: map<string, Instance>, taskId: string, probe: TabProbe,
                            postError: Option<string>): (r: Response<(int, Tab)>)
    ensures r.Ok? ==> r.body.0 == ScreenshotPort(instances, taskId)
    ensures r.Ok? <==> probe.ProbeOk? && |probe.tabs| > 0 && postError.None? &&
                       probe.tabs[ScreenshotTabIndex(probe.tabs).value].wsUrl != ""
    ensures r.Ok? ==> r.body.1 == probe.tabs[ScreenshotTabIndex(probe.tabs).value]
    ensures probe.ProbeOk? && |probe.tabs| == 0 ==> r == Error(NotFound, "No browser tabs found. The browser session may not have started yet.")
    ensures probe.ProbeOk? && |probe.tabs| > 0 && postError.Some? ==>
              r == Error(ServerError, "Failed to connect to Chrome: " + postError.value)
    ensures r.Error? ==> r.code in {NotFound, ServerError}
  {
    var port := ScreenshotPort(instances, taskId);
    match probe
    case ProbeRaised(reason) => Error(ServerError, "Failed to connect to Chrome: " + reason)
    case ProbeNotOk =>
      Error(ServerError, "Failed to connect to Chrome DevTools on port " + Text.IntToString(port) +
                         ". Make sure Chrome is running with --remote-debugging-port=9222")
    case ProbeOk(tabs) =>
      if |tabs| == 0 then Error(NotFound, "No browser tabs found. The browser session may not have started yet.")
      else if postError.Some? then Error(ServerError, "Failed to connect to Chrome: " + postError.value)
      else
        var tab := tabs[ScreenshotTabIndex(tabs).value];
        if tab.wsUrl == "" then Error(ServerError, "WebSocket URL not available for the selected tab")
        else Ok((port, tab))
  }
}
