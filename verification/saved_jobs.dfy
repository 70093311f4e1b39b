/** The browser's saved-jobs list: a JSON array under one localStorage key,
    read whole, changed, and written back by each operation.

    The stored list is the field `stored` (an absent key is the empty list);
    `hasWindow` is false when the code runs outside a browser. The base64
    encoding `btoa` that job ids start from is the function `encode`, fixed
    when the store is made. */
module SavedJobs {
  import opened Wrappers
  import opened Text
  import opened Seqs

  datatype ApplicationStatus = Saved | Applied | Interview | Rejected | Accepted

  /** A job as handed to `saveJob`; `details` stands for its optional
      fields (location, description, scores, ...), copied unchanged, as are
      the `notes` and `appliedAt` a caller may pass. */
  datatype JobInput = JobInput(title: string, company: string, link: string, details: string,
                               notes: Option<string>, appliedAt: Option<string>)

  datatype SavedJob = SavedJob(id: string, title: string, company: string, link: string, details: string,
                               appliedAt: Option<string>, applicationStatus: ApplicationStatus,
                               notes: Option<string>, savedAt: string)

  /** The keys an `updateSavedJob` call passes; an absent key keeps the
      stored value. */
  datatype Patch = Patch(applicationStatus: Option<ApplicationStatus>, notes: Option<string>, appliedAt: Option<string>)

  const IdLength := 16

  /** The string that is encoded into a job's id. */
  function IdContent(job: JobInput): string {
    job.title + "-" + job.company + "-" + job.link
  }

  /** `generateJobId`: the encoding of the content, with everything but
      ASCII letters and digits removed, cut to 16 characters. */
  function GenerateJobId(encode: string -> string, job: JobInput): (id: string)
    ensures |id| <= IdLength
    ensures forall i :: 0 <= i < |id| ==> IsAlnum(id[i])
    ensures |Filter(encode(IdContent(job)), IsAlnum)| >= IdLength ==> |id| == IdLength
  {
    var kept := Filter(encode(IdContent(job)), IsAlnum);
    if |kept| <= IdLength then kept else kept[..IdLength]
  }

  predicate HasId(jobs: seq<SavedJob>, id: string) {
    exists i :: 0 <= i < |jobs| && jobs[i].id == id
  }

  /** The entry `saveJob` appends. */
  function NewSavedJob(id: string, job: JobInput, now: string): SavedJob {
    SavedJob(id, job.title, job.company, job.link, job.details, job.appliedAt, Saved, job.notes, now)
  }

  predicate NotId(id: string, j: SavedJob) { j.id != id }

  /** The list `unsaveJob` writes back: every entry with another id, in
      order. */
  function WithoutId(jobs: seq<SavedJob>, id: string): (r: seq<SavedJob>)
    ensures !HasId(r, id)
  {
    Filter(jobs, j => NotId(id, j))
  }

  /** The entries with the given status, in order. */
  function WithStatus(jobs: seq<SavedJob>, status: ApplicationStatus): seq<SavedJob> {
    Filter(jobs, (j: SavedJob) => j.applicationStatus == status)
  }

  /** The status filter goes entry by entry: one more stored entry adds
      itself at the end exactly when it has the status. With the empty list
      giving nothing, this fixes the result, its order and its copies. */
  lemma {:induction false} WithStatusSnoc(jobs: seq<SavedJob>, j: SavedJob, status: ApplicationStatus)
    ensures WithStatus([], status) == []
    ensures WithStatus(jobs + [j], status) == WithStatus(jobs, status) + (if j.applicationStatus == status then [j] else [])
  {
    FilterConcat(jobs, [j], (j: SavedJob) => j.applicationStatus == status);
  }

  /** The entries with the status in two stored lists, one after the other,
      are those of the joined list. */
  lemma {:induction false} WithStatusConcat(a: seq<SavedJob>, b: seq<SavedJob>, status: ApplicationStatus)
    ensures WithStatus(a + b, status) == WithStatus(a, status) + WithStatus(b, status)
  {
    FilterConcat(a, b, (j: SavedJob) => j.applicationStatus == status);
  }

  /** `{ ...job, ...updates }`. */
  function ApplyPatch(j: SavedJob, p: Patch): (r: SavedJob)
    ensures r.id == j.id && r.title == j.title && r.company == j.company && r.link == j.link
    ensures r.details == j.details && r.savedAt == j.savedAt
    ensures p.applicationStatus.None? ==> r.applicationStatus == j.applicationStatus
    ensures p.notes.None? ==> r.notes == j.notes
    ensures p.appliedAt.None? ==> r.appliedAt == j.appliedAt
  {
    j.(applicationStatus := p.applicationStatus.GetOr(j.applicationStatus),
       notes := if p.notes.Some? then p.notes else j.notes,
       appliedAt := if p.appliedAt.Some? then p.appliedAt else j.appliedAt)
  }

  /** Removing entries leaves the list as it was exactly when none has the
      id. */
  lemma WithoutIdKeepsLengthIffAbsent(jobs: seq<SavedJob>, id: string)
    ensures |WithoutId(jobs, id)| == |jobs| <==> !HasId(jobs, id)
    ensures !HasId(jobs, id) ==> WithoutId(jobs, id) == jobs
  {
    var other := j => NotId(id, j);
    FilterKeepsLengthIffAll(jobs, other);
    assert !HasId(jobs, id) <==> forall i :: 0 <= i < |jobs| ==> other(jobs[i]);
    if !HasId(jobs, id) {
      FilterAll(jobs, other);
    }
  }

  /** Saving a new job and then removing it gives back the list as it was. */
  lemma SaveThenUnsaveRestores(jobs: seq<SavedJob>, entry: SavedJob)
    requires !HasId(jobs, entry.id)
    ensures WithoutId(jobs + [entry], entry.id) == jobs
  {
    FilterConcat(jobs, [entry], j => NotId(entry.id, j));
    WithoutIdKeepsLengthIffAbsent(jobs, entry.id);
  }

  /** The list of saved jobs with its storage. */
  class SavedJobsStore {
    const hasWindow: bool
    const encode: string -> string
    var stored: seq<SavedJob>

    constructor (hasWindow: bool, encode: string -> string, stored: seq<SavedJob>)
      ensures this.hasWindow == hasWindow && this.encode == encode && this.stored == stored
    {
      this.hasWindow := hasWindow;
      this.encode := encode;
      this.stored := stored;
    }

    /** `getSavedJobs`: the stored list, or nothing outside a browser. */
    function GetSavedJobs(): (jobs: seq<SavedJob>)
      reads this
      ensures !hasWindow ==> jobs == []
      ensures hasWindow ==> jobs == stored
    {
      if hasWindow then stored else []
    }

    /** `isJobSaved`: some stored entry has the job's generated id, so the
        lookup by that id finds an entry; never outside a browser. */
    function IsJobSaved(job: JobInput): (b: bool)
      reads this
      ensures b <==> GetSavedJobById(GenerateJobId(encode, job)).Some?
      ensures b ==> hasWindow
    {
      hasWindow && HasId(stored, GenerateJobId(encode, job))
    }

    /** `saveJob`: false, with the list unchanged, outside a browser or when
        an entry with the job's id exists; otherwise the job is appended
        with that id, status 'saved' and the current time, and is then
        saved. */
    method SaveJob(job: JobInput, now: string) returns (ok: bool)
      modifies this
      ensures var id := GenerateJobId(encode, job);
              ok <==> hasWindow && !HasId(old(stored), id)
      ensures ok ==> stored == old(stored) + [NewSavedJob(GenerateJobId(encode, job), job, now)]
      ensures !ok ==> stored == old(stored)
      ensures hasWindow ==> IsJobSaved(job)
    {
      if !hasWindow {
        return false;
      }
      var savedJobs := GetSavedJobs();
      var jobId := GenerateJobId(encode, job);
      if HasId(savedJobs, jobId) {
        return false;
      }
      var entry := NewSavedJob(jobId, job, now);
      stored := savedJobs + [entry];
      assert stored[|stored| - 1].id == jobId;
      return true;
    }

    /** `unsaveJob`: every entry with the id is removed; false, with the
        list unchanged, outside a browser or when none has the id. */
    method UnsaveJob(jobId: string) returns (ok: bool)
      modifies this
      ensures ok <==> hasWindow && HasId(old(stored), jobId)
      ensures ok ==> stored == WithoutId(old(stored), jobId)
      ensures !ok ==> stored == old(stored)
      ensures hasWindow ==> !HasId(stored, jobId)
    {
      if !hasWindow {
        return false;
      }
      var savedJobs := GetSavedJobs();
      var filteredJobs := WithoutId(savedJobs, jobId);
      WithoutIdKeepsLengthIffAbsent(savedJobs, jobId);
      if |filteredJobs| == |savedJobs| {
        return false;
      }
      stored := filteredJobs;
      return true;
    }

    /** `updateSavedJob`: the first entry with the id takes the given
        fields, every other entry stays; false, with the list unchanged,
        outside a browser or when no entry has the id. */
    method UpdateSavedJob(jobId: string, updates: Patch) returns (ok: bool)
      modifies this
      ensures ok <==> hasWindow && HasId(old(stored), jobId)
      ensures !ok ==> stored == old(stored)
      ensures ok ==> exists k :: 0 <= k < |old(stored)| && old(stored)[k].id == jobId
                       && (forall i :: 0 <= i < k ==> old(stored)[i].id != jobId)
                       && stored == old(stored)[k := ApplyPatch(old(stored)[k], updates)]
    {
      if !hasWindow {
        return false;
      }
      var savedJobs := GetSavedJobs();
      var jobIndex := FirstIndex(savedJobs, (j: SavedJob) => j.id == jobId);
      if jobIndex.None? {
        return false;
      }
      var k := jobIndex.value;
      stored := savedJobs[k := ApplyPatch(savedJobs[k], updates)];
      return true;
    }

    /** `getSavedJobsByStatus`: the stored entries with the status, in
        order. */
    function GetSavedJobsByStatus(status: ApplicationStatus): (r: seq<SavedJob>)
      reads this
      ensures forall i :: 0 <= i < |r| ==> r[i].applicationStatus == status && r[i] in GetSavedJobs()
      ensures forall i :: 0 <= i < |GetSavedJobs()| && GetSavedJobs()[i].applicationStatus == status ==> GetSavedJobs()[i] in r
      ensures |r| == Count(GetSavedJobs(), (j: SavedJob) => j.applicationStatus == status)
      ensures r == WithStatus(GetSavedJobs(), status)
    {
      WithStatus(GetSavedJobs(), status)
    }

    /** `getSavedJobById`: the first stored entry with the id, if any. */
    function GetSavedJobById(jobId: string): (r: Option<SavedJob>)
      reads this
      ensures r.Some? ==> r.value.id == jobId && r.value in GetSavedJobs()
      ensures r.None? <==> !HasId(GetSavedJobs(), jobId)
      ensures r.Some? ==> exists k :: 0 <= k < |GetSavedJobs()| && GetSavedJobs()[k] == r.value
                            && forall i :: 0 <= i < k ==> GetSavedJobs()[i].id != jobId
    {
      var jobs := GetSavedJobs();
      match FirstIndex(jobs, (j: SavedJob) => j.id == jobId)
      case None => None
      case Some(k) => Some(jobs[k])
    }

    /** `clearAllSavedJobs`: the key is removed, so the list reads empty
        from then on; outside a browser nothing happens. */
    method ClearAllSavedJobs()
      modifies this
      ensures hasWindow ==> stored == [] && GetSavedJobs() == []
      ensures !hasWindow ==> stored == old(stored)
    {
      if hasWindow {
        stored := [];
      }
    }
  }
}
