/** `validateJobBatch` of the model-backed validator: the jobs are judged
    five at a time, one batch after the other, each judgement written back
    as the job's status, and the loop stops before a batch once the valid
    jobs so far exceed the caller's limit.

    The model's answer for a batch is an input: `replies[k]` is the list of
    judgements returned for batch `k`, and a batch without an entry is one
    whose call threw. The search-row lookup is the boolean `searchExists`. */
module JobValidation {
  import opened Wrappers
  import opened CombineResults
  import BatchValidation

  const LlmBatchSize := 5

  /** One judgement of the model. */
  datatype Judgement = Judgement(jobId: string, isValid: bool, relevanceScore: int, reason: string)

  /** One `update searchResults set ... where jobId = ...`. */
  datatype Update = Update(jobId: string, status: string, relevanceScore: int, reason: string)

  datatype Outcome = Outcome(validJobs: nat, processedJobs: nat)

  // ------------------------------------------------------------ one batch

  /** The status written for a judgement. */
  function StatusOf(j: Judgement): (s: string)
    ensures s == "valid" <==> j.isValid
    ensures s == "invalid" <==> !j.isValid
  {
    if j.isValid then "valid" else "invalid"
  }

  function UpdateFor(j: Judgement): Update {
    Update(j.jobId, StatusOf(j), j.relevanceScore, j.reason)
  }

  /** The updates written for the judgements of one batch, in order. */
  function JudgementUpdates(js: seq<Judgement>): seq<Update> {
    if |js| == 0 then [] else JudgementUpdates(js[..|js| - 1]) + [UpdateFor(js[|js| - 1])]
  }

  /** The number of judgements that say the job is valid. */
  function ValidJudgements(js: seq<Judgement>): nat {
    if |js| == 0 then 0 else ValidJudgements(js[..|js| - 1]) + (if js[|js| - 1].isValid then 1 else 0)
  }

  /** The loop over `validation.validations`: one update per judgement and
      the number of valid ones. */
  method ApplyJudgements(js: seq<Judgement>) returns (updates: seq<Update>, batchValidCount: nat)
    ensures updates == JudgementUpdates(js)
    ensures batchValidCount == ValidJudgements(js)
  {
    updates := [];
    batchValidCount := 0;
    var k := 0;
    while k < |js|
      invariant 0 <= k <= |js|
      invariant updates == JudgementUpdates(js[..k])
      invariant batchValidCount == ValidJudgements(js[..k])
    {
      assert js[..k + 1][..k] == js[..k];
      var result := js[k];
      updates := updates + [Update(result.jobId, if result.isValid then "valid" else "invalid", result.relevanceScore, result.reason)];
      if result.isValid {
        batchValidCount := batchValidCount + 1;
      }
      k := k + 1;
    }
    assert js[..|js|] == js;
  }

  /** Each judgement has its update, at the same position, writing 'valid'
      exactly for a valid judgement. */
  lemma {:induction false} JudgementUpdatesAreOnePerJudgement(js: seq<Judgement>)
    ensures |JudgementUpdates(js)| == |js|
    ensures forall i :: 0 <= i < |js| ==> JudgementUpdates(js)[i] == UpdateFor(js[i])
    decreases |js|
  {
    if |js| > 0 {
      JudgementUpdatesAreOnePerJudgement(js[..|js| - 1]);
    }
  }

  /** The number of updates that write 'valid'. */
  function ValidUpdates(us: seq<Update>): nat {
    if |us| == 0 then 0 else ValidUpdates(us[..|us| - 1]) + (if us[|us| - 1].status == "valid" then 1 else 0)
  }

  lemma {:induction false} ValidUpdatesConcat(a: seq<Update>, b: seq<Update>)
    ensures ValidUpdates(a + b) == ValidUpdates(a) + ValidUpdates(b)
    decreases |b|
  {
    if |b| == 0 {
      assert a + b == a;
    } else {
      ValidUpdatesConcat(a, b[..|b| - 1]);
      assert (a + b)[..|a + b| - 1] == a + b[..|b| - 1];
    }
  }

  /** A batch's count is the number of 'valid' statuses it writes. */
  lemma {:induction false} ValidJudgementsAreValidUpdates(js: seq<Judgement>)
    ensures ValidJudgements(js) == ValidUpdates(JudgementUpdates(js))
    decreases |js|
  {
    if |js| > 0 {
      var init := js[..|js| - 1];
      ValidJudgementsAreValidUpdates(init);
      var us := JudgementUpdates(js);
      assert us[..|us| - 1] == JudgementUpdates(init);
    }
  }

  const FailedReason := "Failed to validate with LLM"

  function FailureUpdate(job: Combined): Update {
    Update(job.id, "invalid", 1, FailedReason)
  }

  /** The updates written for a batch whose model call threw. */
  function FailureUpdates(batch: seq<Combined>): seq<Update> {
    if |batch| == 0 then [] else FailureUpdates(batch[..|batch| - 1]) + [FailureUpdate(batch[|batch| - 1])]
  }

  /** The `catch` branch: every job of the batch is marked invalid. */
  method MarkBatchInvalid(batch: seq<Combined>) returns (updates: seq<Update>)
    ensures updates == FailureUpdates(batch)
  {
    updates := [];
    var k := 0;
    while k < |batch|
      invariant 0 <= k <= |batch|
      invariant updates == FailureUpdates(batch[..k])
    {
      assert batch[..k + 1][..k] == batch[..k];
      updates := updates + [Update(batch[k].id, "invalid", 1, FailedReason)];
      k := k + 1;
    }
    assert batch[..|batch|] == batch;
  }

  /** A failed batch marks every one of its jobs, in order, invalid with
      relevance 1, and writes no 'valid' status. */
  lemma {:induction false} FailedBatchMarksEveryJobInvalid(batch: seq<Combined>)
    ensures |FailureUpdates(batch)| == |batch|
    ensures forall i :: 0 <= i < |batch| ==>
              FailureUpdates(batch)[i] == Update(batch[i].id, "invalid", 1, FailedReason)
    ensures ValidUpdates(FailureUpdates(batch)) == 0
    decreases |batch|
  {
    if |batch| > 0 {
      var init := batch[..|batch| - 1];
      FailedBatchMarksEveryJobInvalid(init);
      var us := FailureUpdates(batch);
      assert us[..|us| - 1] == FailureUpdates(init);
    }
  }

  /** The updates of one batch given the model's answer, if any. */
  function BatchUpdates(batch: seq<Combined>, reply: Option<seq<Judgement>>): seq<Update> {
    match reply
    case Some(js) => JudgementUpdates(js)
    case None => FailureUpdates(batch)
  }

  /** The valid-job count of one batch: nothing for a failed one. */
  function BatchValid(reply: Option<seq<Judgement>>): nat {
    match reply
    case Some(js) => ValidJudgements(js)
    case None => 0
  }

  /** A batch's count is the number of 'valid' statuses it writes. */
  lemma BatchValidIsWrittenValid(batch: seq<Combined>, reply: Option<seq<Judgement>>)
    ensures BatchValid(reply) == ValidUpdates(BatchUpdates(batch, reply))
  {
    match reply {
      case Some(js) => ValidJudgementsAreValidUpdates(js);
      case None => FailedBatchMarksEveryJobInvalid(batch);
    }
  }

  // ------------------------------------------------------------ the batch loop

  function ReplyFor(replies: map<nat, seq<Judgement>>, k: nat): Option<seq<Judgement>> {
    if k in replies then Some(replies[k]) else None
  }

  /** The updates of the first `k` batches, in batch order. */
  function UpdatesUpTo(jobs: seq<Combined>, replies: map<nat, seq<Judgement>>, k: nat): seq<Update> {
    UpdatesOf(BatchValidation.BatchesUpTo(jobs, k), replies)
  }

  /** The updates of the given batches in batch order, batch `k` judged by
      reply `k`. */
  function UpdatesOf(batches: seq<seq<Combined>>, replies: map<nat, seq<Judgement>>): seq<Update> {
    if |batches| == 0 then []
    else UpdatesOf(batches[..|batches| - 1], replies)
         + BatchUpdates(batches[|batches| - 1], ReplyFor(replies, |batches| - 1))
  }

  /** Batch `k` adds its updates after those of the batches before it. */
  lemma UpdatesUpToNext(jobs: seq<Combined>, replies: map<nat, seq<Judgement>>, k: nat)
    ensures UpdatesUpTo(jobs, replies, k + 1)
            == UpdatesUpTo(jobs, replies, k) + BatchUpdates(BatchValidation.BatchAt(jobs, k), ReplyFor(replies, k))
  {
    var bs := BatchValidation.BatchesUpTo(jobs, k + 1);
    assert bs[..k] == BatchValidation.BatchesUpTo(jobs, k);
  }

  /** The valid jobs of the first `k` batches. */
  function ValidUpTo(replies: map<nat, seq<Judgement>>, k: nat): nat {
    if k == 0 then 0 else ValidUpTo(replies, k - 1) + BatchValid(ReplyFor(replies, k - 1))
  }

  /** Whether the loop stops before batch `k`: no jobs left, or more valid
      jobs than the limit. */
  predicate StopsBefore(jobs: seq<Combined>, replies: map<nat, seq<Judgement>>, validJobs: int, resultsLimit: int, k: nat) {
    LlmBatchSize * k >= |jobs| || validJobs + ValidUpTo(replies, k) > resultsLimit
  }

  /** The number of batches the loop runs, searching from batch `k`. */
  function BatchesRunFrom(jobs: seq<Combined>, replies: map<nat, seq<Judgement>>, validJobs: int, resultsLimit: int, k: nat): nat
    decreases |jobs| - LlmBatchSize * k
  {
    if StopsBefore(jobs, replies, validJobs, resultsLimit, k) then k
    else BatchesRunFrom(jobs, replies, validJobs, resultsLimit, k + 1)
  }

  function BatchesRun(jobs: seq<Combined>, replies: map<nat, seq<Judgement>>, validJobs: int, resultsLimit: int): nat {
    BatchesRunFrom(jobs, replies, validJobs, resultsLimit, 0)
  }

  lemma {:induction false} BatchesRunFromIsTheFirstStop(jobs: seq<Combined>, replies: map<nat, seq<Judgement>>, validJobs: int, resultsLimit: int, k: nat)
    ensures var n := BatchesRunFrom(jobs, replies, validJobs, resultsLimit, k);
      k <= n && StopsBefore(jobs, replies, validJobs, resultsLimit, n)
      && forall j :: k <= j < n ==> !StopsBefore(jobs, replies, validJobs, resultsLimit, j)
    decreases |jobs| - LlmBatchSize * k
  {
    if !StopsBefore(jobs, replies, validJobs, resultsLimit, k) {
      BatchesRunFromIsTheFirstStop(jobs, replies, validJobs, resultsLimit, k + 1);
    }
  }

  /** The loop runs batches until the first one before which it stops: every
      batch it runs starts inside the list with the valid jobs so far at most
      the limit (reaching the limit exactly does not stop it), and after the
      last one it has run out of jobs or exceeded the limit. */
  lemma LoopStopsAtTheFirstExcess(jobs: seq<Combined>, replies: map<nat, seq<Judgement>>, validJobs: int, resultsLimit: int)
    ensures var n := BatchesRun(jobs, replies, validJobs, resultsLimit);
      (LlmBatchSize * n >= |jobs| || validJobs + ValidUpTo(replies, n) > resultsLimit)
      && forall j :: 0 <= j < n ==> LlmBatchSize * j < |jobs| && validJobs + ValidUpTo(replies, j) <= resultsLimit
  {
    BatchesRunFromIsTheFirstStop(jobs, replies, validJobs, resultsLimit, 0);
    var n := BatchesRun(jobs, replies, validJobs, resultsLimit);
    forall j | 0 <= j < n
      ensures LlmBatchSize * j < |jobs| && validJobs + ValidUpTo(replies, j) <= resultsLimit
    {
      assert !StopsBefore(jobs, replies, validJobs, resultsLimit, j);
    }
  }

  /** Over any list of batches, the sum of their counts is the number of
      'valid' statuses they write. */
  lemma {:induction false} CountOfBatchesIsWrittenValid(batches: seq<seq<Combined>>, replies: map<nat, seq<Judgement>>)
    ensures ValidUpTo(replies, |batches|) == ValidUpdates(UpdatesOf(batches, replies))
    decreases |batches|
  {
    if |batches| > 0 {
      var k := |batches| - 1;
      CountOfBatchesIsWrittenValid(batches[..k], replies);
      var these := BatchUpdates(batches[k], ReplyFor(replies, k));
      ValidUpdatesConcat(UpdatesOf(batches[..k], replies), these);
      BatchValidIsWrittenValid(batches[k], ReplyFor(replies, k));
    }
  }

  /** The reported number of valid jobs is the number of 'valid' statuses
      written. */
  lemma ReportedValidIsWrittenValid(jobs: seq<Combined>, replies: map<nat, seq<Judgement>>, k: nat)
    ensures ValidUpTo(replies, k) == ValidUpdates(UpdatesUpTo(jobs, replies, k))
  {
    CountOfBatchesIsWrittenValid(BatchValidation.BatchesUpTo(jobs, k), replies);
  }

  /** Batch `k`'s task, added to what the first `k` batches gave. */
  method RunBatch(jobs: seq<Combined>, replies: map<nat, seq<Judgement>>, k: nat,
                  updates: seq<Update>, validCount: nat)
    returns (updates': seq<Update>, validCount': nat)
    requires LlmBatchSize * k < |jobs|
    requires updates == UpdatesUpTo(jobs, replies, k) && validCount == ValidUpTo(replies, k)
    ensures updates' == UpdatesUpTo(jobs, replies, k + 1)
    ensures validCount' == ValidUpTo(replies, k + 1)
  {
    var i := LlmBatchSize * k;
    var batch := jobs[i..Min(i + LlmBatchSize, |jobs|)];
    assert batch == BatchValidation.BatchAt(jobs, k);
    UpdatesUpToNext(jobs, replies, k);
    var reply := ReplyFor(replies, k);
    var batchUpdates: seq<Update>;
    var batchValidCount: nat;
    match reply {
      case Some(js) =>
        batchUpdates, batchValidCount := ApplyJudgements(js);
      case None =>
        batchUpdates := MarkBatchInvalid(batch);
        batchValidCount := 0;
    }
    updates' := updates + batchUpdates;
    validCount' := validCount + batchValidCount;
  }

  const MissingFieldsMessage := "Missing required fields: searchId and jobs array"
  const SearchNotFoundMessage := "Search not found"

  /** `validateJobBatch`: it throws for an empty search id or an unknown
      search; otherwise it runs the batches until the valid jobs exceed the
      limit, writes their updates, and reports the valid jobs of the batches
      it ran and every job as processed. */
  method ValidateJobBatch(searchId: string, searchExists: bool, jobs: seq<Combined>, validJobs: int, resultsLimit: int,
                          replies: map<nat, seq<Judgement>>)
    returns (r: Result<Outcome, string>, updates: seq<Update>)
    ensures searchId == "" ==> r == Failure(MissingFieldsMessage) && updates == []
    ensures searchId != "" && !searchExists ==> r == Failure(SearchNotFoundMessage) && updates == []
    ensures searchId != "" && searchExists ==>
              var n := BatchesRun(jobs, replies, validJobs, resultsLimit);
              r == Success(Outcome(ValidUpTo(replies, n), |jobs|)) && updates == UpdatesUpTo(jobs, replies, n)
  {
    if searchId == "" {
      return Failure(MissingFieldsMessage), [];
    }
    if !searchExists {
      return Failure(SearchNotFoundMessage), [];
    }
    var validCount;
    updates, validCount := RunBatches(jobs, validJobs, resultsLimit, replies);
    return Success(Outcome(validCount, |jobs|)), updates;
  }

  /** Where the search for the stopping batch goes from batch `k`. */
  lemma BatchesRunFromStep(jobs: seq<Combined>, replies: map<nat, seq<Judgement>>, validJobs: int, resultsLimit: int, k: nat)
    ensures StopsBefore(jobs, replies, validJobs, resultsLimit, k) ==>
              BatchesRunFrom(jobs, replies, validJobs, resultsLimit, k) == k
    ensures !StopsBefore(jobs, replies, validJobs, resultsLimit, k) ==>
              BatchesRunFrom(jobs, replies, validJobs, resultsLimit, k) == BatchesRunFrom(jobs, replies, validJobs, resultsLimit, k + 1)
  {
  }

  /** The `for` loop over the batches: it runs batches until the valid jobs
      exceed the limit or the jobs run out, and gives their updates and their
      valid jobs. */
  method RunBatches(jobs: seq<Combined>, validJobs: int, resultsLimit: int, replies: map<nat, seq<Judgement>>)
    returns (updates: seq<Update>, validCount: nat)
    ensures var n := BatchesRun(jobs, replies, validJobs, resultsLimit);
            validCount == ValidUpTo(replies, n) && updates == UpdatesUpTo(jobs, replies, n)
  {
    updates := [];
    validCount := 0;
    var i := 0;
    var k := 0;
    while i < |jobs|
      invariant i == LlmBatchSize * k
      invariant BatchesRunFrom(jobs, replies, validJobs, resultsLimit, k) == BatchesRun(jobs, replies, validJobs, resultsLimit)
      invariant updates == UpdatesUpTo(jobs, replies, k)
      invariant validCount == ValidUpTo(replies, k)
      decreases |jobs| - i
    {
      BatchesRunFromStep(jobs, replies, validJobs, resultsLimit, k);
      if validJobs + validCount > resultsLimit {
        return;
      }
      updates, validCount := RunBatch(jobs, replies, k, updates, validCount);
      i := i + LlmBatchSize;
      k := k + 1;
    }
    BatchesRunFromStep(jobs, replies, validJobs, resultsLimit, k);
  }
}
