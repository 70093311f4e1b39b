/** Replay of a task's saved frames: `get_task_screenshots` lists the frame
    files of the task's directory in frame order, and
    `get_task_screenshot_file` serves one of them.  The directory listing
    (`os.listdir` with `os.stat`) is an input, in whatever order the
    operating system returns it. */
module ReplayStore {
  import opened Wrappers
  import opened Text
  import opened Seqs
  import opened Sorting
  import opened Http
  import opened Screencast

  const FramePrefix := "screenshot_"
  const FrameSuffix := ".png"

  /** A directory entry with its size and modification time. */
  datatype DirEntry = DirEntry(name: string, size: nat, mtime: int)

  /** What listing the task's directory gives. */
  datatype DirListing = DirMissing | DirUnreadable(reason: string) | DirListed(entries: seq<DirEntry>)

  datatype ScreenshotInfo = ScreenshotInfo(filename: string, number: int, size: nat, created: int, url: string)

  datatype Listing = Listing(screenshots: seq<ScreenshotInfo>, total: nat)

  predicate IsFrameFile(name: string) { StartsWith(name, FramePrefix) && EndsWith(name, FrameSuffix) }

  predicate IsFrameEntry(e: DirEntry) { IsFrameFile(e.name) }

  /** The number in a frame file's name: every `screenshot_` and every `.png`
      removed, the rest read as an integer, 0 when it does not read. */
  function FrameNumber(name: string): int {
    ParseInt(RemoveAll(RemoveAll(name, FramePrefix), FrameSuffix)).GetOr(0)
  }

  function Info(taskId: string, e: DirEntry): (i: ScreenshotInfo)
    ensures i.filename == e.name && i.number == FrameNumber(e.name)
  {
    ScreenshotInfo(e.name, FrameNumber(e.name), e.size, e.mtime,
                   "/api/task-screenshots/" + taskId + "/" + e.name)
  }

  /** Sorting by number, ties kept in listing order. */
  predicate ByNumber(a: ScreenshotInfo, b: ScreenshotInfo) { a.number < b.number }

  lemma ByNumberIsStrictWeakOrder()
    ensures StrictWeakOrder(ByNumber)
  {
  }

  /** The frame files among `entries`, in listing order. */
  function FrameInfos(taskId: string, entries: seq<DirEntry>): seq<ScreenshotInfo> {
    MapFilter(entries, IsFrameEntry, e => Info(taskId, e))
  }

  /** The screenshots listed for a directory's entries. */
  function Screenshots(taskId: string, entries: seq<DirEntry>): seq<ScreenshotInfo> {
    Sort(FrameInfos(taskId, entries), ByNumber)
  }

  /** The loop of `get_task_screenshots`: the frame files, in listing order. */
  method CollectFrameFiles(taskId: string, entries: seq<DirEntry>) returns (files: seq<ScreenshotInfo>)
    ensures files == FrameInfos(taskId, entries)
  {
    files := [];
    var i := 0;
    while i < |entries|
      invariant 0 <= i <= |entries|
      invariant files == FrameInfos(taskId, entries[..i])
    {
      assert entries[..i + 1][..i] == entries[..i];
      assert entries[..i + 1][i] == entries[i];
      if IsFrameEntry(entries[i]) {
        files := files + [Info(taskId, entries[i])];
      }
      i := i + 1;
    }
    assert entries[..|entries|] == entries;
  }

  /** `get_task_screenshots`: an empty listing for a missing directory, 500 if
      the directory cannot be read, otherwise the frame files in frame
      order. */
  method ListScreenshots(taskId: string, dir: DirListing) returns (r: Response<Listing>)
    ensures dir.DirMissing? ==> r == Ok(Listing([], 0))
    ensures dir.DirUnreadable? ==> r == Error(ServerError, dir.reason)
    ensures dir.DirListed? ==> r == Ok(Listing(Screenshots(taskId, dir.entries), |Screenshots(taskId, dir.entries)|))
  {
    match dir
    case DirMissing => return Ok(Listing([], 0));
    case DirUnreadable(reason) => return Error(ServerError, reason);
    case DirListed(entries) =>
      var files := CollectFrameFiles(taskId, entries);
      var sorted := Sort(files, ByNumber);
      return Ok(Listing(sorted, |sorted|));
  }

  /** The listing holds one record per frame file of the directory, every
      record is that of a frame file, and records come in ascending number
      order. */
  lemma ScreenshotsAreTheFrameFilesInOrder(taskId: string, entries: seq<DirEntry>)
    ensures |Screenshots(taskId, entries)| == Count(entries, IsFrameEntry)
    ensures forall x :: x in Screenshots(taskId, entries) ==>
              exists j :: 0 <= j < |entries| && IsFrameEntry(entries[j]) && x == Info(taskId, entries[j])
    ensures forall j :: 0 <= j < |entries| && IsFrameEntry(entries[j]) ==> Info(taskId, entries[j]) in Screenshots(taskId, entries)
    ensures forall i, j :: 0 <= i < j < |Screenshots(taskId, entries)| ==>
              Screenshots(taskId, entries)[i].number <= Screenshots(taskId, entries)[j].number
  {
    var info := e => Info(taskId, e);
    var fs := FrameInfos(taskId, entries);
    MapFilterLength(entries, IsFrameEntry, info);
    MapFilterSound(entries, IsFrameEntry, info);
    MapFilterComplete(entries, IsFrameEntry, info);
    SortKeepsMembers(fs, ByNumber);
    ByNumberIsStrictWeakOrder();
    SortSorted(fs, ByNumber);
  }

  /** Removing `screenshot_` from a frame name leaves the digits and the
      extension. */
  lemma StripFramePrefix(digits: string)
    requires AllDigits(digits)
    ensures RemoveAll(FramePrefix + (digits + FrameSuffix), FramePrefix) == digits + FrameSuffix
  {
    assert (FramePrefix + (digits + FrameSuffix))[|FramePrefix|..] == digits + FrameSuffix;
    assert RemoveAll(FramePrefix + (digits + FrameSuffix), FramePrefix) == RemoveAll(digits + FrameSuffix, FramePrefix);
    assert forall i :: 0 <= i < |digits| ==> digits[i] != FramePrefix[0];
    RemoveAllKeepsPrefix(digits, FrameSuffix, FramePrefix);
    RemoveAllAbsent(FrameSuffix, FramePrefix);
  }

  /** Removing `.png` from the digits and the extension leaves the digits. */
  lemma StripFrameSuffix(digits: string)
    requires AllDigits(digits)
    ensures RemoveAll(digits + FrameSuffix, FrameSuffix) == digits
  {
    assert forall i :: 0 <= i < |digits| ==> digits[i] != FrameSuffix[0];
    RemoveAllKeepsPrefix(digits, FrameSuffix, FrameSuffix);
    assert FrameSuffix + [] == FrameSuffix;
    assert RemoveAll(FrameSuffix, FrameSuffix) == RemoveAll([], FrameSuffix);
  }

  /** A frame saved by the live stream is listed under the number it was
      saved with. */
  lemma SavedFrameNumberReadsBack(n: nat)
    ensures IsFrameFile(FrameFileName(n))
    ensures FrameNumber(FrameFileName(n)) == n
  {
    var digits := NatToString(n);
    var name := FrameFileName(n);
    assert name == FramePrefix + (digits + FrameSuffix);
    assert StartsWith(name, FramePrefix) by {
      assert name[..|FramePrefix|] == FramePrefix;
    }
    assert EndsWith(name, FrameSuffix) by {
      assert name[|name| - |FrameSuffix|..] == FrameSuffix;
    }
    StripFramePrefix(digits);
    StripFrameSuffix(digits);
    NatToStringParses(n);
  }

  /** `get_task_screenshot_file`: 404 unless something exists at the path
      and the name ends in `.png`; then the saved file's bytes, or 500 with
      the text of what `send_file` raised. `unservable` is that exception
      when the path holds an entry `send_file` cannot serve (a directory,
      an unreadable file); such an entry exists even when no frame was
      saved under the name. */
  function GetScreenshotFile(dirs: map<string, map<string, Bytes>>, taskId: string, filename: string,
                             unservable: Option<string>): (r: Response<Bytes>)
    ensures r.Ok? <==> taskId in dirs && filename in dirs[taskId] && EndsWith(filename, FrameSuffix) && unservable.None?
    ensures r.Ok? ==> r.body == dirs[taskId][filename]
    ensures r.Error? && r.code == ServerError <==> EndsWith(filename, FrameSuffix) && unservable.Some?
    ensures r.Error? && r.code == ServerError ==> r.message == unservable.value
    ensures r.Error? && r.code != ServerError ==> r == Error(NotFound, "Screenshot not found")
  {
    var present := (taskId in dirs && filename in dirs[taskId]) || unservable.Some?;
    if !present || !EndsWith(filename, FrameSuffix) then Error(NotFound, "Screenshot not found")
    else if unservable.Some? then Error(ServerError, unservable.value)
    else Ok(dirs[taskId][filename])
  }

  /** Every frame file the stream saved is served back as written. */
  lemma SavedFrameIsServed(dirs: map<string, map<string, Bytes>>, taskId: string, r: Reaction)
    requires r.makesDir && r.write.Some? && r.write.value.0 == FrameFileName(r.frameCount)
    ensures GetScreenshotFile(ApplyToDisk(dirs, taskId, r), taskId, r.write.value.0, None) == Ok(r.write.value.1)
  {
    SavedFrameNumberReadsBack(r.frameCount);
  }
}
