/** `validateJobBatch` of the search pipeline: the jobs are cut into batches
    of five, each batch is judged by a language model, and every judgement
    whose job id is a well-formed UUID becomes an update of that job's
    search-result row.

    The model's answer for each batch is an input (`replies`: batch number
    to judgements; a batch it does not hold is one whose model call threw).
    The batches run one after the other here, in batch order. */
module BatchValidation {
  import opened Wrappers
  import opened Text
  import opened Seqs
  import opened CombineResults

  const LlmBatchSize := 5

  /** One judgement of the language model. */
  datatype Verdict = Verdict(jobId: string, isFullMatch: bool, isPartialMatch: bool,
                             relevanceScore: int, reason: string)

  /** `db.update(searchResults).set(...).where(jobId = ...)`. */
  datatype Update = Update(jobId: string, status: string, relevanceScore: int, reason: string)

  /** The answer of `validateJobBatch`. */
  datatype Validation = Validation(validJobs: nat, processedJobs: nat)

  // ------------------------------------------------------------ job ids

  /** The positions of the four dashes of a UUID. */
  predicate IsDashPosition(i: int) { i == 8 || i == 13 || i == 18 || i == 23 }

  /** `/^[0-9a-f]{8}-[0-9a-f]{4}-[0-9a-f]{4}-[0-9a-f]{4}-[0-9a-f]{12}$/i`: the
      textual form of a UUID (section 3 of RFC 4122), in either case. */
  predicate IsUuid(s: string) {
    |s| == 36 &&
    forall i :: 0 <= i < |s| ==> if IsDashPosition(i) then s[i] == '-' else IsHexDigit(s[i])
  }

  predicate AllHex(h: string) { forall i :: 0 <= i < |h| ==> IsHexDigit(h[i]) }

  /** The five groups of 32 hex digits, joined by dashes. */
  function Dashed(h: string): (s: string)
    requires |h| == 32
    ensures |s| == 36
  {
    h[..8] + "-" + h[8..12] + "-" + h[12..16] + "-" + h[16..20] + "-" + h[20..]
  }

  /** A UUID without its dashes. */
  function Undashed(s: string): (h: string)
    requires |s| == 36
    ensures |h| == 32
  {
    s[..8] + s[9..13] + s[14..18] + s[19..23] + s[24..]
  }

  /** Every 32 hex digits written with dashes form an id the check accepts,
      and the digits read back. */
  lemma DashedIsUuid(h: string)
    requires |h| == 32 && AllHex(h)
    ensures IsUuid(Dashed(h))
    ensures Undashed(Dashed(h)) == h
  {
    var s := Dashed(h);
    forall i | 0 <= i < 36 ensures if IsDashPosition(i) then s[i] == '-' else IsHexDigit(s[i]) {
      if i < 8 { assert s[i] == h[i]; }
      else if 8 < i < 13 { assert s[i] == h[i - 1]; }
      else if 13 < i < 18 { assert s[i] == h[i - 2]; }
      else if 18 < i < 23 { assert s[i] == h[i - 3]; }
      else if 23 < i { assert s[i] == h[i - 4]; }
    }
    assert Undashed(s) == h[..8] + h[8..12] + h[12..16] + h[16..20] + h[20..];
    assert h[..8] + h[8..12] + h[12..16] + h[16..20] + h[20..] == h;
  }

  /** Every id the check accepts is 32 hex digits written with dashes. */
  lemma UuidIsDashed(s: string)
    requires IsUuid(s)
    ensures AllHex(Undashed(s))
    ensures Dashed(Undashed(s)) == s
  {
    var h := Undashed(s);
    forall j | 0 <= j < 32 ensures IsHexDigit(h[j]) {
      if j < 8 { assert h[j] == s[j]; }
      else if j < 12 { assert h[j] == s[j + 1]; }
      else if j < 16 { assert h[j] == s[j + 2]; }
      else if j < 20 { assert h[j] == s[j + 3]; }
      else { assert h[j] == s[j + 4]; }
    }
    var d := Dashed(h);
    forall i | 0 <= i < 36 ensures d[i] == s[i] {
      if i < 8 { assert d[i] == h[i]; }
      else if i == 8 || i == 13 || i == 18 || i == 23 { assert d[i] == '-'; }
      else if i < 13 { assert d[i] == h[i - 1]; }
      else if i < 18 { assert d[i] == h[i - 2]; }
      else if i < 23 { assert d[i] == h[i - 3]; }
      else { assert d[i] == h[i - 4]; }
    }
  }

  // ------------------------------------------------------------ one batch

  /** The status written for a judgement. */
  function StatusOf(v: Verdict): (s: string)
    ensures s == "valid" <==> v.isFullMatch
    ensures s == "partial" <==> !v.isFullMatch && v.isPartialMatch
    ensures s == "invalid" <==> !v.isFullMatch && !v.isPartialMatch
  {
    if v.isFullMatch then "valid" else if v.isPartialMatch then "partial" else "invalid"
  }

  /** A judgement whose trimmed job id is a UUID; the others are skipped. */
  predicate WellFormed(v: Verdict) { IsUuid(Trim(v.jobId)) }

  /** A judgement counted among the valid jobs. */
  predicate CountsAsValid(v: Verdict) { WellFormed(v) && (v.isFullMatch || v.isPartialMatch) }

  function UpdateFor(v: Verdict): Update {
    Update(Trim(v.jobId), StatusOf(v), v.relevanceScore, v.reason)
  }

  /** The updates written for the model's judgements of one batch. */
  function VerdictUpdates(vs: seq<Verdict>): seq<Update> {
    MapFilter(vs, WellFormed, UpdateFor)
  }

  /** The number of judgements counted among the valid jobs. */
  function ValidVerdicts(vs: seq<Verdict>): nat {
    if |vs| == 0 then 0
    else ValidVerdicts(vs[..|vs| - 1]) + (if CountsAsValid(vs[|vs| - 1]) then 1 else 0)
  }

  /** One more judgement: its update, and its count, follow those of the
      judgements before it. */
  lemma VerdictsSnoc(vs: seq<Verdict>, k: nat)
    requires k < |vs|
    ensures VerdictUpdates(vs[..k + 1]) == VerdictUpdates(vs[..k]) + (if WellFormed(vs[k]) then [UpdateFor(vs[k])] else [])
    ensures ValidVerdicts(vs[..k + 1]) == ValidVerdicts(vs[..k]) + (if CountsAsValid(vs[k]) then 1 else 0)
  {
    assert vs[..k + 1][..k] == vs[..k];
  }

  /** The loop over `validation.validations`: one update per well-formed
      judgement, and the number of those that are a full or partial match. */
  method ApplyVerdicts(vs: seq<Verdict>) returns (updates: seq<Update>, batchValidCount: nat)
    ensures updates == VerdictUpdates(vs)
    ensures batchValidCount == ValidVerdicts(vs)
  {
    updates := [];
    batchValidCount := 0;
    var k := 0;
    while k < |vs|
      invariant 0 <= k <= |vs|
      invariant updates == VerdictUpdates(vs[..k])
      invariant batchValidCount == ValidVerdicts(vs[..k])
    {
      VerdictsSnoc(vs, k);
      var v := vs[k];
      var id := Trim(v.jobId);
      if IsUuid(id) {
        updates := updates + [Update(id, StatusOf(v), v.relevanceScore, v.reason)];
        if v.isFullMatch || v.isPartialMatch {
          batchValidCount := batchValidCount + 1;
        }
      }
      k := k + 1;
    }
    assert vs[..|vs|] == vs;
  }

  /** An update that writes 'valid' or 'partial'. */
  predicate WritesValid(u: Update) { u.status == "valid" || u.status == "partial" }

  /** The number of updates that write 'valid' or 'partial'. */
  function ValidUpdates(us: seq<Update>): nat {
    if |us| == 0 then 0
    else ValidUpdates(us[..|us| - 1]) + (if WritesValid(us[|us| - 1]) then 1 else 0)
  }

  /** The count of a batch is the number of its updates that write 'valid'
      or 'partial'. */
  lemma {:induction false} ValidCountMatchesUpdates(vs: seq<Verdict>)
    ensures ValidVerdicts(vs) == ValidUpdates(VerdictUpdates(vs))
    decreases |vs|
  {
    if |vs| > 0 {
      var init := vs[..|vs| - 1];
      var last := vs[|vs| - 1];
      ValidCountMatchesUpdates(init);
      var us := VerdictUpdates(vs);
      if WellFormed(last) {
        assert us == VerdictUpdates(init) + [UpdateFor(last)];
        assert us[..|us| - 1] == VerdictUpdates(init);
        assert CountsAsValid(last) <==> WritesValid(us[|us| - 1]);
      } else {
        assert us == VerdictUpdates(init) + [];
        assert us == VerdictUpdates(init);
      }
    }
  }

  /** Every update of a batch belongs to a well-formed judgement and writes
      that judgement's status, score and reason under the trimmed id; every
      well-formed judgement gets its update. */
  lemma VerdictUpdatesAreTheWellFormedVerdicts(vs: seq<Verdict>)
    ensures |VerdictUpdates(vs)| == Count(vs, WellFormed)
    ensures forall u :: u in VerdictUpdates(vs) ==>
              exists j :: 0 <= j < |vs| && IsUuid(Trim(vs[j].jobId)) && u == UpdateFor(vs[j])
    ensures forall j :: 0 <= j < |vs| && IsUuid(Trim(vs[j].jobId)) ==> UpdateFor(vs[j]) in VerdictUpdates(vs)
  {
    MapFilterLength(vs, WellFormed, UpdateFor);
    MapFilterSound(vs, WellFormed, UpdateFor);
    MapFilterComplete(vs, WellFormed, UpdateFor);
  }

  const FailedReason := "Failed to validate with LLM"

  predicate WellFormedJob(job: Combined) { IsUuid(Trim(job.id)) }

  function FailureUpdate(job: Combined): Update {
    Update(Trim(job.id), "invalid", 1, FailedReason)
  }

  /** The updates written for a batch whose model call threw. */
  function FailureUpdates(batch: seq<Combined>): seq<Update> {
    MapFilter(batch, WellFormedJob, FailureUpdate)
  }

  /** The `catch` branch: every job with a well-formed id is marked invalid. */
  method MarkBatchInvalid(batch: seq<Combined>) returns (updates: seq<Update>)
    ensures updates == FailureUpdates(batch)
  {
    updates := [];
    var k := 0;
    while k < |batch|
      invariant 0 <= k <= |batch|
      invariant updates == FailureUpdates(batch[..k])
    {
      assert batch[..k + 1][..k] == batch[..k];
      var id := Trim(batch[k].id);
      if IsUuid(id) {
        updates := updates + [Update(id, "invalid", 1, FailedReason)];
      }
      k := k + 1;
    }
    assert batch[..|batch|] == batch;
  }

  /** A failed batch marks each of its well-formed jobs invalid with
      relevance 1, and nothing else. */
  lemma FailedBatchMarksInvalid(batch: seq<Combined>)
    ensures forall u :: u in FailureUpdates(batch) ==>
              u.status == "invalid" && u.relevanceScore == 1 &&
              exists j :: 0 <= j < |batch| && IsUuid(Trim(batch[j].id)) && u.jobId == Trim(batch[j].id)
    ensures forall j :: 0 <= j < |batch| && IsUuid(Trim(batch[j].id)) ==>
              FailureUpdate(batch[j]) in FailureUpdates(batch)
  {
    MapFilterSound(batch, WellFormedJob, FailureUpdate);
    MapFilterComplete(batch, WellFormedJob, FailureUpdate);
  }

  /** The updates of one batch given the model's answer, if any. */
  function BatchUpdates(batch: seq<Combined>, reply: Option<seq<Verdict>>): seq<Update> {
    match reply
    case Some(vs) => VerdictUpdates(vs)
    case None => FailureUpdates(batch)
  }

  /** The valid-job count of one batch: nothing for a failed one. */
  function BatchValid(reply: Option<seq<Verdict>>): nat {
    match reply
    case Some(vs) => ValidVerdicts(vs)
    case None => 0
  }

  /** One batch's task. */
  method ValidateOneBatch(batch: seq<Combined>, reply: Option<seq<Verdict>>)
    returns (updates: seq<Update>, batchValidCount: nat)
    ensures updates == BatchUpdates(batch, reply)
    ensures batchValidCount == BatchValid(reply)
  {
    match reply {
      case Some(vs) =>
        updates, batchValidCount := ApplyVerdicts(vs);
      case None =>
        updates := MarkBatchInvalid(batch);
        batchValidCount := 0;
    }
  }

  // ------------------------------------------------------------ all batches

  /** `jobs.slice(5k, 5k + 5)`, bounds clamped to the length. */
  function BatchAt(jobs: seq<Combined>, k: nat): seq<Combined> {
    jobs[Min(LlmBatchSize * k, |jobs|)..Min(LlmBatchSize * k + LlmBatchSize, |jobs|)]
  }

  /** How many batches the loop builds. */
  function NumBatches(n: nat): (b: nat)
    ensures LlmBatchSize * b >= n && (b > 0 ==> LlmBatchSize * (b - 1) < n)
  {
    (n + LlmBatchSize - 1) / LlmBatchSize
  }

  function ReplyFor(replies: map<nat, seq<Verdict>>, k: nat): Option<seq<Verdict>> {
    if k in replies then Some(replies[k]) else None
  }

  /** The first `k` batches, in order. */
  function BatchesUpTo(jobs: seq<Combined>, k: nat): (bs: seq<seq<Combined>>)
    ensures |bs| == k
  {
    if k == 0 then [] else BatchesUpTo(jobs, k - 1) + [BatchAt(jobs, k - 1)]
  }

  /** The updates of the given batches in batch order, batch `k` judged by
      reply `k`. */
  function UpdatesOf(batches: seq<seq<Combined>>, replies: map<nat, seq<Verdict>>): seq<Update> {
    if |batches| == 0 then []
    else UpdatesOf(batches[..|batches| - 1], replies)
         + BatchUpdates(batches[|batches| - 1], ReplyFor(replies, |batches| - 1))
  }

  /** The updates of the first `k` batches, in batch order. */
  function UpdatesUpTo(jobs: seq<Combined>, replies: map<nat, seq<Verdict>>, k: nat): seq<Update> {
    UpdatesOf(BatchesUpTo(jobs, k), replies)
  }

  /** Batch `k` adds its updates after those of the batches before it. */
  lemma UpdatesUpToNext(jobs: seq<Combined>, replies: map<nat, seq<Verdict>>, k: nat)
    ensures UpdatesUpTo(jobs, replies, k + 1)
            == UpdatesUpTo(jobs, replies, k) + BatchUpdates(BatchAt(jobs, k), ReplyFor(replies, k))
  {
    var bs := BatchesUpTo(jobs, k + 1);
    assert bs[..k] == BatchesUpTo(jobs, k);
  }

  /** The valid jobs of the first `k` batches. */
  function ValidUpTo(replies: map<nat, seq<Verdict>>, k: nat): nat {
    if k == 0 then 0 else ValidUpTo(replies, k - 1) + BatchValid(ReplyFor(replies, k - 1))
  }

  /** The jobs of the first `k` batches, one after the other. */
  function BatchedUpTo(jobs: seq<Combined>, k: nat): seq<Combined> {
    if k == 0 then [] else BatchedUpTo(jobs, k - 1) + BatchAt(jobs, k - 1)
  }

  /** The batches are consecutive slices of five: together they are the
      jobs, in order, each one whole except possibly the last. */
  lemma {:induction false} BatchesCoverTheJobs(jobs: seq<Combined>, k: nat)
    ensures BatchedUpTo(jobs, k) == jobs[..Min(LlmBatchSize * k, |jobs|)]
    ensures k < NumBatches(|jobs|) ==> |BatchAt(jobs, k)| == LlmBatchSize || k == NumBatches(|jobs|) - 1
    ensures k < NumBatches(|jobs|) ==> 0 < |BatchAt(jobs, k)| <= LlmBatchSize
  {
    if k > 0 {
      BatchesCoverTheJobs(jobs, k - 1);
      var lo := Min(LlmBatchSize * (k - 1), |jobs|);
      var hi := Min(LlmBatchSize * k, |jobs|);
      assert BatchAt(jobs, k - 1) == jobs[lo..hi];
      assert jobs[..lo] + jobs[lo..hi] == jobs[..hi];
    }
  }

  /** The whole batch list covers every job. */
  lemma AllBatchesCoverTheJobs(jobs: seq<Combined>)
    ensures BatchedUpTo(jobs, NumBatches(|jobs|)) == jobs
  {
    BatchesCoverTheJobs(jobs, NumBatches(|jobs|));
    assert jobs[..|jobs|] == jobs;
  }

  lemma {:induction false} ValidUpdatesConcat(a: seq<Update>, b: seq<Update>)
    ensures ValidUpdates(a + b) == ValidUpdates(a) + ValidUpdates(b)
    decreases |b|
  {
    if |b| == 0 {
      assert a + b == a;
    } else {
      var init := b[..|b| - 1];
      ValidUpdatesConcat(a, init);
      assert (a + b)[..|a + b| - 1] == a + init;
    }
  }

  /** A failed batch writes no 'valid' or 'partial' status. */
  lemma {:induction false} FailureUpdatesAreNotValid(batch: seq<Combined>)
    ensures ValidUpdates(FailureUpdates(batch)) == 0
    decreases |batch|
  {
    if |batch| > 0 {
      var init := batch[..|batch| - 1];
      FailureUpdatesAreNotValid(init);
      var us := FailureUpdates(batch);
      if WellFormedJob(batch[|batch| - 1]) {
        assert us == FailureUpdates(init) + [FailureUpdate(batch[|batch| - 1])];
        assert us[..|us| - 1] == FailureUpdates(init);
      } else {
        assert us == FailureUpdates(init) + [];
        assert us == FailureUpdates(init);
      }
    }
  }

  /** A batch's count is the number of its updates that write 'valid' or
      'partial'. */
  lemma BatchValidIsWrittenValid(batch: seq<Combined>, reply: Option<seq<Verdict>>)
    ensures BatchValid(reply) == ValidUpdates(BatchUpdates(batch, reply))
  {
    match reply {
      case Some(vs) => ValidCountMatchesUpdates(vs);
      case None => FailureUpdatesAreNotValid(batch);
    }
  }

  /** Adding one batch's updates adds its count to the written count. */
  lemma AddBatchKeepsCount(before: seq<Update>, batch: seq<Combined>, reply: Option<seq<Verdict>>)
    ensures ValidUpdates(before + BatchUpdates(batch, reply)) == ValidUpdates(before) + BatchValid(reply)
  {
    ValidUpdatesConcat(before, BatchUpdates(batch, reply));
    BatchValidIsWrittenValid(batch, reply);
  }

  /** Over any list of batches, the sum of their counts is the number of
      their updates that write 'valid' or 'partial'. */
  lemma {:induction false} CountOfBatchesIsWrittenValid(batches: seq<seq<Combined>>, replies: map<nat, seq<Verdict>>)
    ensures ValidUpTo(replies, |batches|) == ValidUpdates(UpdatesOf(batches, replies))
    decreases |batches|
  {
    if |batches| > 0 {
      var k := |batches| - 1;
      CountOfBatchesIsWrittenValid(batches[..k], replies);
      AddBatchKeepsCount(UpdatesOf(batches[..k], replies), batches[k], ReplyFor(replies, k));
    }
  }

  /** The reported number of valid jobs is the number of updates that write
      'valid' or 'partial': a failed batch adds neither. */
  lemma ReportedValidIsWrittenValid(jobs: seq<Combined>, replies: map<nat, seq<Verdict>>, k: nat)
    ensures ValidUpTo(replies, k) == ValidUpdates(UpdatesUpTo(jobs, replies, k))
  {
    CountOfBatchesIsWrittenValid(BatchesUpTo(jobs, k), replies);
  }

  /** The task of batch `k`, added to what the first `k` batches gave. */
  method RunBatchTask(jobs: seq<Combined>, replies: map<nat, seq<Verdict>>, k: nat,
                      updates: seq<Update>, validCount: nat)
    returns (updates': seq<Update>, validCount': nat, batchLength: nat)
    requires LlmBatchSize * k < |jobs|
    requires updates == UpdatesUpTo(jobs, replies, k) && validCount == ValidUpTo(replies, k)
    ensures updates' == UpdatesUpTo(jobs, replies, k + 1)
    ensures validCount' == ValidUpTo(replies, k + 1)
    ensures batchLength == Min(LlmBatchSize * (k + 1), |jobs|) - LlmBatchSize * k
  {
    var i := LlmBatchSize * k;
    var batch := jobs[i..Min(i + LlmBatchSize, |jobs|)];
    assert batch == BatchAt(jobs, k);
    UpdatesUpToNext(jobs, replies, k);
    var batchUpdates, batchValid := ValidateOneBatch(batch, ReplyFor(replies, k));
    updates' := updates + batchUpdates;
    validCount' := validCount + batchValid;
    batchLength := |batch|;
  }

  /** A loop that stops at the first multiple of five reaching `n` has
      built exactly the batches of `n` jobs. */
  lemma LastBatchCount(n: nat, k: nat)
    requires LlmBatchSize * k >= n && (k > 0 ==> LlmBatchSize * (k - 1) < n)
    ensures k == NumBatches(n)
  {
  }

  /** The loop that builds one task per batch, and the sum of the tasks'
      counts. */
  method RunBatchTasks(jobs: seq<Combined>, replies: map<nat, seq<Verdict>>)
    returns (updates: seq<Update>, validCount: nat, processedJobsTotal: nat)
    ensures updates == UpdatesUpTo(jobs, replies, NumBatches(|jobs|))
    ensures validCount == ValidUpTo(replies, NumBatches(|jobs|))
    ensures processedJobsTotal == |jobs|
  {
    updates := [];
    validCount := 0;
    processedJobsTotal := 0;
    var i := 0;
    var k := 0;
    while i < |jobs|
      invariant i == LlmBatchSize * k && (k > 0 ==> LlmBatchSize * (k - 1) < |jobs|)
      invariant updates == UpdatesUpTo(jobs, replies, k)
      invariant validCount == ValidUpTo(replies, k)
      invariant processedJobsTotal == Min(i, |jobs|)
      decreases |jobs| - i
    {
      var batchLength;
      updates, validCount, batchLength := RunBatchTask(jobs, replies, k, updates, validCount);
      processedJobsTotal := processedJobsTotal + batchLength;
      i := i + LlmBatchSize;
      k := k + 1;
    }
    LastBatchCount(|jobs|, k);
  }

  const MissingFieldsMessage := "Missing required fields: searchId and jobs array"

  /** `validateJobBatch`: it throws for an empty search id; otherwise it
      writes the updates of every batch and reports the valid jobs of all
      batches and every job as processed. */
  method ValidateJobBatch(searchId: string, jobs: seq<Combined>, replies: map<nat, seq<Verdict>>)
    returns (r: Result<Validation, string>, updates: seq<Update>)
    ensures searchId == "" ==> r == Failure(MissingFieldsMessage) && updates == []
    ensures searchId != "" ==> r == Success(Validation(ValidUpTo(replies, NumBatches(|jobs|)), |jobs|))
    ensures searchId != "" ==> updates == UpdatesUpTo(jobs, replies, NumBatches(|jobs|))
  {
    if searchId == "" {
      return Failure(MissingFieldsMessage), [];
    }
    var validCount, processedJobsTotal;
    updates, validCount, processedJobsTotal := RunBatchTasks(jobs, replies);
    var processed := if processedJobsTotal != 0 then processedJobsTotal else |jobs|;
    return Success(Validation(validCount, processed)), updates;
  }
}
