/** The DevTools side of a live stream (`generate_frames`' `on_open`,
    `on_message` and `on_error`): the commands sent to the tab, the
    per-connection frame counter, the frame files written for replay and the
    events queued for the browser client.

    A message handler's reaction is first given as a function (`React`) and
    then applied to the connection's state by `ScreencastSession.OnMessage`.
    The base64 decoder, the outcome of `os.makedirs` and of the file write,
    and the clock are inputs. */
module Screencast {
  import opened Wrappers
  import opened Text
  import opened Seqs
  import opened TabSelection

  type Bytes = seq<bv8>

  // ------------------------------------------------------------ protocol

  /** Parameters of the commands the relay sends. */
  datatype CommandParams =
    | NoParams
    | ScreencastSettings(format: string, quality: nat, maxWidth: nat, maxHeight: nat, everyNthFrame: nat)
    | AckParams(sessionId: int)

  datatype Command = Command(id: int, methodName: string, params: CommandParams)

  const EnableId := 1
  const StartId := 2
  const StopId := 999
  /** Added to the frame number to give the acknowledgement's id. */
  const AckIdOffset := 1000

  const FrameMethod := "Page.screencastFrame"
  const AckMethod := "Page.screencastFrameAck"

  const EnableCommand := Command(EnableId, "Page.enable", NoParams)
  const StartCommand := Command(StartId, "Page.startScreencast", ScreencastSettings("png", 80, 1920, 1080, 1))
  const StopCommand := Command(StopId, "Page.stopScreencast", NoParams)

  function AckCommand(frameNumber: nat, sessionId: int): Command {
    Command(frameNumber + AckIdOffset, AckMethod, AckParams(sessionId))
  }

  /** `params` of a `Page.screencastFrame` event.  An absent or empty `data`
      reads as "", an absent or zero `sessionId` as 0: both are falsy. */
  datatype FrameParams = FrameParams(data: string, sessionId: int, screenWidth: Option<int>, screenHeight: Option<int>)

  /** A message received from the tab. */
  datatype Incoming =
    | Reply(id: int, error: Option<string>)   // a command's reply; the error's message if it failed
    | Notification(methodName: string, params: FrameParams)
    | Unreadable(reason: string)              // decoding or a field lookup raised; the exception's text

  // ------------------------------------------------------------ client events

  /** What is queued for the browser client. */
  datatype StreamEvent =
    | ErrorEvent(message: string)                    // {'type': 'error', ...}
    | UntypedError(message: string)                  // {'error': ...}, no type field
    | StatusEvent(message: string, tabUrl: string, tabTitle: string)
    | FrameEvent(data: string, frameNumber: nat, timestamp: int, width: Option<int>, height: Option<int>)
    | Keepalive(timestamp: int)

  // ------------------------------------------------------------ handling a message

  /** The name a frame is saved under. */
  function FrameFileName(n: nat): string {
    "screenshot_" + NatToString(n) + ".png"
  }

  /** What the file system and the socket do while a frame is handled: the
      error `os.makedirs` raises, whether the file write succeeds, and the
      error sending the acknowledgement raises (nothing is sent then). */
  datatype FrameIo = FrameIo(makedirsError: Option<string>, writeOk: bool, ackError: Option<string>)

  /** A data frame whose acknowledgement is attempted. */
  predicate Acknowledges(m: Incoming, io: FrameIo) {
    IsDataFrame(m) && io.makedirsError.None? && m.params.sessionId != 0
  }

  /** A frame that carries image data: the only message that is counted. */
  predicate IsDataFrame(m: Incoming) {
    m.Notification? && m.methodName == FrameMethod && m.params.data != ""
  }

  /** The effect of one message: the new counter, the events queued, the
      commands sent, whether the task's directory is created and which file is
      written. */
  datatype Reaction = Reaction(frameCount: nat, events: seq<StreamEvent>, commands: seq<Command>,
                               makesDir: bool, write: Option<(string, Bytes)>)

  /** `on_message`. */
  function React(frameCount: nat, m: Incoming, decode: string -> Option<Bytes>, io: FrameIo, now: int): (r: Reaction)
    ensures r.frameCount == if IsDataFrame(m) then frameCount + 1 else frameCount
    ensures |r.events| <= 2 && |r.commands| <= 1
    ensures r.commands != [] <==> Acknowledges(m, io) && io.ackError.None?
    ensures r.commands != [] ==> r.commands == [AckCommand(r.frameCount, m.params.sessionId)]
    ensures IsDataFrame(m) && io.makedirsError.None? ==>
              |r.events| >= 1 &&
              r.events[0] == FrameEvent(m.params.data, r.frameCount, now, m.params.screenWidth, m.params.screenHeight)
    ensures IsDataFrame(m) && io.makedirsError.Some? ==> r.events == [ErrorEvent(io.makedirsError.value)]
    ensures |r.events| == 2 <==> Acknowledges(m, io) && io.ackError.Some?
    ensures |r.events| == 2 ==> r.events[1] == ErrorEvent(io.ackError.value)
    ensures r.makesDir <==> IsDataFrame(m) && io.makedirsError.None?
    ensures r.write.Some? <==> r.makesDir && decode(m.params.data).Some? && io.writeOk
    ensures r.write.Some? ==> r.write.value == (FrameFileName(r.frameCount), decode(m.params.data).value)
    ensures m.Reply? ==> r.events == if m.id == StartId && m.error.Some?
                                     then [ErrorEvent("Screencast start failed: " + m.error.value)] else []
    ensures m.Unreadable? ==> r.events == [ErrorEvent(m.reason)]
    ensures m.Notification? && !IsDataFrame(m) ==> r.events == []
  {
    match m
    case Reply(id, error) =>
      if id == StartId && error.Some? then
        Reaction(frameCount, [ErrorEvent("Screencast start failed: " + error.value)], [], false, None)
      else Reaction(frameCount, [], [], false, None)
    case Unreadable(reason) => Reaction(frameCount, [ErrorEvent(reason)], [], false, None)
    case Notification(name, params) =>
      if name == FrameMethod && params.data != "" then
        var n := frameCount + 1;
        match io.makedirsError
        case Some(reason) => Reaction(n, [ErrorEvent(reason)], [], false, None)
        case None =>
          var write := match decode(params.data)
                       case Some(bytes) => if io.writeOk then Some((FrameFileName(n), bytes)) else None
                       case None => None;
          var frame := FrameEvent(params.data, n, now, params.screenWidth, params.screenHeight);
          if params.sessionId == 0 then Reaction(n, [frame], [], true, write)
          else match io.ackError
            case None => Reaction(n, [frame], [AckCommand(n, params.sessionId)], true, write)
            case Some(reason) => Reaction(n, [frame, ErrorEvent(reason)], [], true, write)
      else Reaction(frameCount, [], [], false, None)
  }

  /** The first frame of every connection is number 1 and is saved as
      `screenshot_1.png`, whatever an earlier connection of the same task
      wrote there. */
  lemma FirstFrameOfEveryConnection(m: Incoming, decode: string -> Option<Bytes>, io: FrameIo, now: int)
    requires IsDataFrame(m) && io.makedirsError.None?
    ensures React(0, m, decode, io, now).frameCount == 1
    ensures React(0, m, decode, io, now).events[0].frameNumber == 1
    ensures React(0, m, decode, io, now).write.Some? ==>
              React(0, m, decode, io, now).write.value.0 == "screenshot_1.png"
  {
    assert NatToString(1) == "1";
  }

  // ------------------------------------------------------------ a connection's history

  /** One delivered message together with what the file system and the clock
      did while it was handled. */
  datatype Delivery = Delivery(m: Incoming, io: FrameIo, now: int)

  predicate IsDataDelivery(d: Delivery) { IsDataFrame(d.m) }

  /** The commands sent while a sequence of messages is handled, starting
      from frame counter `n`; and the final counter. */
  function Handle(n: nat, ds: seq<Delivery>, decode: string -> Option<Bytes>): (r: (nat, seq<Command>))
    decreases |ds|
  {
    if |ds| == 0 then (n, [])
    else
      var first := React(n, ds[0].m, decode, ds[0].io, ds[0].now);
      var rest := Handle(first.frameCount, ds[1..], decode);
      (rest.0, first.commands + rest.1)
  }

  /** Acknowledgement ids rise strictly and lie above the fixed command ids. */
  predicate AcksFresh(cs: seq<Command>, low: nat, high: nat) {
    (forall i :: 0 <= i < |cs| ==> cs[i].methodName == AckMethod && low < cs[i].id <= high) &&
    (forall i, j :: 0 <= i < j < |cs| ==> cs[i].id < cs[j].id)
  }

  /** Over a whole connection the counter ends at the number of frames that
      carried data, and every command sent is an acknowledgement whose id is
      above 1000, so it never collides with `Page.enable` (1),
      `Page.startScreencast` (2) or `Page.stopScreencast` (999), nor with
      another acknowledgement. */
  lemma {:induction false} HandleCountsAndAcks(n: nat, ds: seq<Delivery>, decode: string -> Option<Bytes>)
    ensures Handle(n, ds, decode).0 == n + Count(ds, IsDataDelivery)
    ensures AcksFresh(Handle(n, ds, decode).1, AckIdOffset + n, AckIdOffset + Handle(n, ds, decode).0)
    decreases |ds|
  {
    if |ds| > 0 {
      var first := React(n, ds[0].m, decode, ds[0].io, ds[0].now);
      HandleCountsAndAcks(first.frameCount, ds[1..], decode);
    }
  }

  // ------------------------------------------------------------ state

  /** The working directory: per task directory, file name to contents. */
  class Disk {
    var dirs: map<string, map<string, Bytes>>

    constructor(initial: map<string, map<string, Bytes>>)
      ensures dirs == initial
    {
      dirs := initial;
    }
  }

  /** The directory contents after a reaction: the task's directory exists
      once a frame was handled, and the frame file replaces any earlier file
      of that name. */
  function ApplyToDisk(dirs: map<string, map<string, Bytes>>, taskId: string, r: Reaction): (d: map<string, map<string, Bytes>>)
    ensures r.makesDir ==> taskId in d
    ensures !r.makesDir ==> d == dirs
    ensures forall t :: t in dirs && t != taskId ==> t in d && d[t] == dirs[t]
    ensures r.makesDir && r.write.Some? ==>
              r.write.value.0 in d[taskId] && d[taskId][r.write.value.0] == r.write.value.1
  {
    if !r.makesDir then dirs
    else
      var dir := if taskId in dirs then dirs[taskId] else map[];
      match r.write
      case None => dirs[taskId := dir]
      case Some(file) => dirs[taskId := dir[file.0 := file.1]]
  }

  /** One live-stream connection to one tab. */
  class ScreencastSession {
    const taskId: string
    const tab: Tab
    const disk: Disk
    const decode: string -> Option<Bytes>
    var frameCount: nat
    var queue: seq<StreamEvent>
    var sent: seq<Command>

    /** A new connection starts counting from zero. */
    constructor(taskId: string, tab: Tab, disk: Disk, decode: string -> Option<Bytes>)
      ensures this.taskId == taskId && this.tab == tab && this.disk == disk && this.decode == decode
      ensures frameCount == 0 && queue == [] && sent == []
    {
      this.taskId := taskId;
      this.tab := tab;
      this.disk := disk;
      this.decode := decode;
      frameCount := 0;
      queue := [];
      sent := [];
    }

    /** `on_open`: enable the Page domain, then start the screencast, then
        tell the client which tab is streamed. */
    method OnOpen()
      modifies this
      ensures sent == old(sent) + [EnableCommand, StartCommand]
      ensures queue == old(queue) + [StatusEvent("Live stream started", tab.url, tab.title)]
      ensures frameCount == old(frameCount)
    {
      sent := sent + [EnableCommand];
      sent := sent + [StartCommand];
      queue := queue + [StatusEvent("Live stream started", tab.url, tab.title)];
    }

    /** `on_message`. */
    method OnMessage(m: Incoming, io: FrameIo, now: int)
      modifies this, disk
      ensures frameCount == React(old(frameCount), m, decode, io, now).frameCount
      ensures queue == old(queue) + React(old(frameCount), m, decode, io, now).events
      ensures sent == old(sent) + React(old(frameCount), m, decode, io, now).commands
      ensures disk.dirs == ApplyToDisk(old(disk.dirs), taskId, React(old(frameCount), m, decode, io, now))
    {
      var r := React(frameCount, m, decode, io, now);
      frameCount := r.frameCount;
      queue := queue + r.events;
      sent := sent + r.commands;
      disk.dirs := ApplyToDisk(disk.dirs, taskId, r);
    }

    /** `on_error`. */
    method OnError(reason: string)
      modifies this
      ensures queue == old(queue) + [ErrorEvent(reason)]
      ensures sent == old(sent) && frameCount == old(frameCount)
    {
      queue := queue + [ErrorEvent(reason)];
    }

    /** The clean-up after the stream loop ended on an error. */
    method StopScreencast()
      modifies this
      ensures sent == old(sent) + [StopCommand]
      ensures queue == old(queue) && frameCount == old(frameCount)
    {
      sent := sent + [StopCommand];
    }
  }
}
