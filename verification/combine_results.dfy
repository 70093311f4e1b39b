/** `combineResults`: the keyword (SQL) and semantic (vector) result lists
    merged into one list without repeated job ids, each job tagged with
    where it was found; then the jobs are recorded as pending and validated
    batch by batch until enough are valid.

    A JavaScript `Map` keeps the position of a key's first `set`; the model
    keeps that order as a sequence of keys beside a Dafny map. */
module CombineResults {
  import opened Wrappers
  import opened Seqs

  datatype Source = Sql | Vector | Both

  /** A keyword-search row; `details` stands for its other columns. */
  datatype SqlJob = SqlJob(id: string, details: string, similarityScore: Option<real>)

  /** A semantic-search row with its similarity. */
  datatype VectorJob = VectorJob(id: string, details: string, similarity: real)

  /** An entry of the merged list. */
  datatype Combined = Combined(id: string, details: string, similarityScore: Option<real>, source: Source)

  function FromSql(j: SqlJob): Combined { Combined(j.id, j.details, j.similarityScore, Sql) }

  function FromVector(j: VectorJob): Combined { Combined(j.id, j.details, Some(j.similarity), Vector) }

  // ------------------------------------------------------------ reference definitions

  /** The last keyword row with the non-empty id `k`. */
  function LastSql(sql: seq<SqlJob>, k: string): (r: Option<SqlJob>)
    ensures r.Some? ==> r.value.id == k && k != ""
  {
    if |sql| == 0 then None
    else if sql[|sql| - 1].id == k && k != "" then Some(sql[|sql| - 1])
    else LastSql(sql[..|sql| - 1], k)
  }

  /** The first semantic row with the non-empty id `k`. */
  function FirstVector(vec: seq<VectorJob>, k: string): (r: Option<VectorJob>)
    ensures r.Some? ==> r.value.id == k && k != ""
  {
    if |vec| == 0 then None
    else
      var f := FirstVector(vec[..|vec| - 1], k);
      if f.Some? then f
      else if vec[|vec| - 1].id == k && k != "" then Some(vec[|vec| - 1])
      else None
  }

  /** How many semantic rows carry the id `k`. */
  function VectorCount(vec: seq<VectorJob>, k: string): (n: nat)
    ensures k != "" ==> (n > 0 <==> FirstVector(vec, k).Some?)
  {
    if |vec| == 0 then 0
    else VectorCount(vec[..|vec| - 1], k) + (if vec[|vec| - 1].id == k then 1 else 0)
  }

  /** The keyword rows' non-empty ids, each once, in order of first
      appearance. */
  function SqlKeys(sql: seq<SqlJob>): (r: seq<string>)
    ensures forall k :: k in r <==> LastSql(sql, k).Some?
    ensures Distinct(r)
  {
    if |sql| == 0 then []
    else
      var init := SqlKeys(sql[..|sql| - 1]);
      var id := sql[|sql| - 1].id;
      if id != "" && id !in init then init + [id] else init
  }

  /** The ids found only by the semantic search, each once, in order of first
      appearance. */
  function VectorKeys(sql: seq<SqlJob>, vec: seq<VectorJob>): (r: seq<string>)
    ensures forall k :: k in r <==> LastSql(sql, k).None? && FirstVector(vec, k).Some?
    ensures Distinct(r)
  {
    if |vec| == 0 then []
    else
      var init := VectorKeys(sql, vec[..|vec| - 1]);
      var id := vec[|vec| - 1].id;
      if id != "" && LastSql(sql, id).None? && FirstVector(vec[..|vec| - 1], id).None? then init + [id] else init
  }

  predicate Found(sql: seq<SqlJob>, vec: seq<VectorJob>, k: string) {
    LastSql(sql, k).Some? || FirstVector(vec, k).Some?
  }

  /** The merged entry of a found id, as the code builds it: a keyword row
      keeps its last version and becomes 'both' once any semantic row has
      its id; a semantic-only id keeps its first row and becomes 'both' once
      a second semantic row has its id. */
  function EntryAsWritten(sql: seq<SqlJob>, vec: seq<VectorJob>, k: string): (e: Combined)
    requires Found(sql, vec, k)
    ensures e.id == k
  {
    match LastSql(sql, k)
    case Some(row) => FromSql(row).(source := if VectorCount(vec, k) > 0 then Both else Sql)
    case None => FromVector(FirstVector(vec, k).value).(source := if VectorCount(vec, k) > 1 then Both else Vector)
  }

  function Keys(sql: seq<SqlJob>, vec: seq<VectorJob>): (r: seq<string>)
    ensures forall k :: k in r <==> Found(sql, vec, k)
    ensures Distinct(r)
  {
    var a := SqlKeys(sql);
    var b := VectorKeys(sql, vec);
    assert forall i, j :: 0 <= i < |a| && 0 <= j < |b| ==> a[i] != b[j] by {
      forall i, j | 0 <= i < |a| && 0 <= j < |b| ensures a[i] != b[j] {
        assert a[i] in a && b[j] in b;
      }
    }
    a + b
  }

  /** `combinedJobs` as the code computes it. */
  function CombineAsWritten(sql: seq<SqlJob>, vec: seq<VectorJob>): (r: seq<Combined>)
    ensures |r| == |Keys(sql, vec)|
  {
    var ks := Keys(sql, vec);
    seq(|ks|, j requires 0 <= j < |ks| => assert ks[j] in ks; EntryAsWritten(sql, vec, ks[j]))
  }

  // ------------------------------------------------------------ the merge loops

  /** The keyword rows' `forEach`: `jobMap.set(id, {...job, source: 'sql'})`
      for every row with an id. */
  method AddSqlRows(sql: seq<SqlJob>) returns (order: seq<string>, entries: map<string, Combined>)
    ensures order == SqlKeys(sql)
    ensures forall k :: k in entries <==> Found(sql, [], k)
    ensures forall k :: k in entries ==> entries[k] == EntryAsWritten(sql, [], k)
  {
    order := [];
    entries := map[];
    var i := 0;
    while i < |sql|
      invariant 0 <= i <= |sql|
      invariant order == SqlKeys(sql[..i])
      invariant forall k :: k in entries <==> LastSql(sql[..i], k).Some?
      invariant forall k :: k in entries ==> entries[k] == FromSql(LastSql(sql[..i], k).value)
    {
      assert sql[..i + 1][..i] == sql[..i];
      var job := sql[i];
      if job.id != "" {
        if job.id !in entries {
          order := order + [job.id];
        }
        entries := entries[job.id := FromSql(job)];
      }
      i := i + 1;
    }
    assert sql[..|sql|] == sql;
  }

  /** The semantic rows' `forEach`: an id already in `jobMap` becomes
      'both', a new non-empty id is added as 'vector'. */
  method AddVectorRows(sql: seq<SqlJob>, vec: seq<VectorJob>, order0: seq<string>, entries0: map<string, Combined>)
    returns (order: seq<string>, entries: map<string, Combined>)
    requires order0 == SqlKeys(sql)
    requires forall k :: k in entries0 <==> Found(sql, [], k)
    requires forall k :: k in entries0 ==> entries0[k] == EntryAsWritten(sql, [], k)
    ensures order == Keys(sql, vec)
    ensures forall k :: k in entries <==> Found(sql, vec, k)
    ensures forall k :: k in entries ==> entries[k] == EntryAsWritten(sql, vec, k)
  {
    order, entries := order0, entries0;
    var i := 0;
    assert vec[..0] == [];
    while i < |vec|
      invariant 0 <= i <= |vec|
      invariant order == SqlKeys(sql) + VectorKeys(sql, vec[..i])
      invariant forall k :: k in entries <==> Found(sql, vec[..i], k)
      invariant forall k :: k in entries ==> entries[k] == EntryAsWritten(sql, vec[..i], k)
    {
      assert vec[..i + 1][..i] == vec[..i];
      var job := vec[i];
      if job.id in entries {
        entries := entries[job.id := entries[job.id].(source := Both)];
      } else if job.id != "" {
        order := order + [job.id];
        entries := entries[job.id := FromVector(job)];
      }
      i := i + 1;
    }
    assert vec[..|vec|] == vec;
  }

  /** The two `forEach` loops filling `jobMap`, then
      `Array.from(jobMap.values())`. */
  method CombineJobs(sql: seq<SqlJob>, vec: seq<VectorJob>) returns (combined: seq<Combined>)
    ensures combined == CombineAsWritten(sql, vec)
  {
    var order, entries := AddSqlRows(sql);
    order, entries := AddVectorRows(sql, vec, order, entries);
    assert forall j :: 0 <= j < |order| ==> order[j] in entries by {
      forall j | 0 <= j < |order| ensures order[j] in entries {
        assert order[j] in Keys(sql, vec);
      }
    }
    combined := seq(|order|, j requires 0 <= j < |order| => entries[order[j]]);
  }

  // ------------------------------------------------------------ what the merge promises

  /** A non-empty id was returned by the keyword search. */
  predicate InSql(sql: seq<SqlJob>, k: string) { k != "" && exists j :: 0 <= j < |sql| && sql[j].id == k }

  /** A non-empty id was returned by the semantic search. */
  predicate InVector(vec: seq<VectorJob>, k: string) { k != "" && exists j :: 0 <= j < |vec| && vec[j].id == k }

  lemma {:induction false} LastSqlFindsAny(sql: seq<SqlJob>, k: string)
    ensures LastSql(sql, k).Some? <==> InSql(sql, k)
    ensures LastSql(sql, k).Some? ==> LastSql(sql, k).value in sql
  {
    if |sql| > 0 {
      var init := sql[..|sql| - 1];
      LastSqlFindsAny(init, k);
      if InSql(sql, k) && sql[|sql| - 1].id != k {
        var j :| 0 <= j < |sql| && sql[j].id == k;
        assert init[j] == sql[j];
      }
      if LastSql(init, k).Some? {
        var j :| 0 <= j < |init| && init[j] == LastSql(init, k).value;
        assert sql[j] == init[j];
      }
    }
  }

  lemma {:induction false} FirstVectorFindsAny(vec: seq<VectorJob>, k: string)
    ensures FirstVector(vec, k).Some? <==> InVector(vec, k)
    ensures FirstVector(vec, k).Some? ==> FirstVector(vec, k).value in vec
  {
    if |vec| > 0 {
      var init := vec[..|vec| - 1];
      FirstVectorFindsAny(init, k);
      if InVector(vec, k) && vec[|vec| - 1].id != k {
        var j :| 0 <= j < |vec| && vec[j].id == k;
        assert init[j] == vec[j];
      }
      if FirstVector(init, k).Some? {
        var j :| 0 <= j < |init| && init[j] == FirstVector(init, k).value;
        assert vec[j] == init[j];
      }
    }
  }

  /** The merged list holds every non-empty id of either search exactly
      once, the keyword ids first. */
  lemma MergedIdsAreTheFoundIds(sql: seq<SqlJob>, vec: seq<VectorJob>)
    ensures var r := CombineAsWritten(sql, vec);
            (forall i, j :: 0 <= i < j < |r| ==> r[i].id != r[j].id) &&
            (forall k :: (exists i :: 0 <= i < |r| && r[i].id == k) <==> InSql(sql, k) || InVector(vec, k)) &&
            (forall i :: 0 <= i < |r| ==> (i < |SqlKeys(sql)| <==> InSql(sql, r[i].id)))
  {
    var r := CombineAsWritten(sql, vec);
    var ks := Keys(sql, vec);
    forall k ensures (exists i :: 0 <= i < |r| && r[i].id == k) <==> InSql(sql, k) || InVector(vec, k) {
      LastSqlFindsAny(sql, k);
      FirstVectorFindsAny(vec, k);
      if InSql(sql, k) || InVector(vec, k) {
        assert k in ks;
        var i :| 0 <= i < |ks| && ks[i] == k;
        assert r[i].id == k;
      }
    }
    forall i | 0 <= i < |r| ensures i < |SqlKeys(sql)| <==> InSql(sql, r[i].id) {
      LastSqlFindsAny(sql, r[i].id);
      if i < |SqlKeys(sql)| {
        assert ks[i] in SqlKeys(sql);
      } else {
        assert ks[i] in VectorKeys(sql, vec);
      }
    }
  }

  /** The tags the code gives: 'sql' for a keyword id no semantic row has,
      'both' for a keyword id a semantic row also has, and, for an id only
      the semantic search found, 'vector' when one semantic row has it and
      'both' when several do. */
  lemma TagsAsWritten(sql: seq<SqlJob>, vec: seq<VectorJob>, i: nat)
    requires i < |CombineAsWritten(sql, vec)|
    ensures var e := CombineAsWritten(sql, vec)[i];
            (e.source == Sql <==> InSql(sql, e.id) && !InVector(vec, e.id)) &&
            (e.source == Vector <==> !InSql(sql, e.id) && VectorCount(vec, e.id) == 1) &&
            (e.source == Both <==> (InSql(sql, e.id) && InVector(vec, e.id)) ||
                                   (!InSql(sql, e.id) && VectorCount(vec, e.id) > 1))
  {
    var k := Keys(sql, vec)[i];
    assert k in Keys(sql, vec);
    LastSqlFindsAny(sql, k);
    FirstVectorFindsAny(vec, k);
  }

  /** A keyword job keeps the last keyword row with its id, and a job only
      the semantic search found keeps its first row, with its similarity as
      `similarityScore`. */
  lemma EntriesKeepTheirRows(sql: seq<SqlJob>, vec: seq<VectorJob>, i: nat)
    requires i < |CombineAsWritten(sql, vec)|
    ensures var e := CombineAsWritten(sql, vec)[i];
            (InSql(sql, e.id) ==> LastSql(sql, e.id) == Some(SqlJob(e.id, e.details, e.similarityScore))) &&
            (!InSql(sql, e.id) ==> e.similarityScore.Some? &&
                                   FirstVector(vec, e.id) == Some(VectorJob(e.id, e.details, e.similarityScore.value)))
  {
    var k := Keys(sql, vec)[i];
    assert k in Keys(sql, vec);
    LastSqlFindsAny(sql, k);
  }

  /** Two semantic rows with the same id, and no keyword row: the code tags
      the job 'both' although the keyword search never found it. */
  lemma DuplicateVectorRowTaggedBoth(v: VectorJob)
    requires v.id != ""
    ensures CombineAsWritten([], [v, v]) == [FromVector(v).(source := Both)]
  {
    var vec := [v, v];
    assert vec[..1] == [v];
    assert [v][..0] == [];
    assert VectorCount(vec, v.id) == 2;
    assert VectorKeys([], [v]) == [v.id];
    assert FirstVector([v], v.id).Some?;
    assert Keys([], vec) == [v.id];
  }

  // ------------------------------------------------------------ the intended tagging

  /** The merged entry with the tag meaning where the id was found: a
      repeated semantic row does not make a job 'both'. */
  function Entry(sql: seq<SqlJob>, vec: seq<VectorJob>, k: string): (e: Combined)
    requires Found(sql, vec, k)
    ensures e.id == k
  {
    match LastSql(sql, k)
    case Some(row) => FromSql(row).(source := if VectorCount(vec, k) > 0 then Both else Sql)
    case None => FromVector(FirstVector(vec, k).value)
  }

  /** `combinedJobs` with the intended tags. */
  function Combine(sql: seq<SqlJob>, vec: seq<VectorJob>): (r: seq<Combined>)
    ensures |r| == |Keys(sql, vec)|
  {
    var ks := Keys(sql, vec);
    seq(|ks|, j requires 0 <= j < |ks| => assert ks[j] in ks; Entry(sql, vec, ks[j]))
  }

  /** Every job is tagged by the searches that found it. */
  lemma CombineTags(sql: seq<SqlJob>, vec: seq<VectorJob>, i: nat)
    requires i < |Combine(sql, vec)|
    ensures var e := Combine(sql, vec)[i];
            (InSql(sql, e.id) || InVector(vec, e.id)) &&
            (e.source == Sql <==> InSql(sql, e.id) && !InVector(vec, e.id)) &&
            (e.source == Vector <==> !InSql(sql, e.id) && InVector(vec, e.id)) &&
            (e.source == Both <==> InSql(sql, e.id) && InVector(vec, e.id))
  {
    var k := Keys(sql, vec)[i];
    assert k in Keys(sql, vec);
    LastSqlFindsAny(sql, k);
    FirstVectorFindsAny(vec, k);
  }

  /** The intended merge differs from the code only in the tag of a repeated
      semantic-only id. */
  lemma CombineDiffersOnlyInRepeatedVectorTags(sql: seq<SqlJob>, vec: seq<VectorJob>, i: nat)
    requires i < |Combine(sql, vec)|
    ensures var (a, b) := (CombineAsWritten(sql, vec)[i], Combine(sql, vec)[i]);
            a.(source := b.source) == b &&
            (a.source != b.source <==> !InSql(sql, a.id) && VectorCount(vec, a.id) > 1)
  {
    var k := Keys(sql, vec)[i];
    assert k in Keys(sql, vec);
    LastSqlFindsAny(sql, k);
  }

  // ------------------------------------------------------------ the batch loop

  const ResultsLimit := 20
  const MaxBatchSize := 20

  function Min(a: int, b: int): int { if a < b then a else b }

  /** What the loop does to the database and the event stream, in order. */
  datatype DbStep =
    | InsertPending(jobId: string, source: Source)   // a `searchResults` row with status 'pending'
    | Emit                                           // `emitSearchUpdate(searchId)`
    | ValidateBatch(jobs: seq<Combined>)              // `validateJobBatch` called on these jobs

  /** The pending rows inserted for a batch, one per job in batch order. */
  function Inserts(batch: seq<Combined>): (r: seq<DbStep>)
    ensures |r| == |batch|
  {
    if |batch| == 0 then []
    else Inserts(batch[..|batch| - 1]) + [InsertPending(batch[|batch| - 1].id, batch[|batch| - 1].source)]
  }

  lemma {:induction false} InsertsAreInserts(batch: seq<Combined>)
    ensures forall k :: 0 <= k < |batch| ==> Inserts(batch)[k] == InsertPending(batch[k].id, batch[k].source)
  {
    if |batch| > 0 {
      var init := batch[..|batch| - 1];
      InsertsAreInserts(init);
      forall k | 0 <= k < |init| ensures Inserts(batch)[k] == InsertPending(batch[k].id, batch[k].source) {
        assert Inserts(batch)[k] == Inserts(init)[k];
        assert init[k] == batch[k];
      }
    }
  }

  /** The inner `for` loop: one pending row per job of the batch. */
  method InsertPendingRows(batch: seq<Combined>) returns (steps: seq<DbStep>)
    ensures steps == Inserts(batch)
  {
    steps := [];
    var k := 0;
    while k < |batch|
      invariant 0 <= k <= |batch|
      invariant steps == Inserts(batch[..k])
    {
      assert batch[..k + 1][..k] == batch[..k];
      steps := steps + [InsertPending(batch[k].id, batch[k].source)];
      k := k + 1;
    }
    assert batch[..|batch|] == batch;
  }

  /** The steps of one batch: its pending rows, an update, the validation
      call and another update. */
  function Block(batch: seq<Combined>): seq<DbStep> {
    Inserts(batch) + [Emit, ValidateBatch(batch), Emit]
  }

  /** The steps of several batches, one after the other. */
  function Blocks(batches: seq<seq<Combined>>): seq<DbStep> {
    if |batches| == 0 then []
    else Blocks(batches[..|batches| - 1]) + Block(batches[|batches| - 1])
  }

  lemma BlocksSnoc(done: seq<seq<Combined>>, batch: seq<Combined>)
    ensures Blocks(done + [batch]) == Blocks(done) + Block(batch)
  {
    assert (done + [batch])[..|done|] == done;
  }

  /** `batchSize` once `numValid` valid jobs are known:
      `min(RESULTS_LIMIT - numValid, 20)`, which is also the first batch's
      20. */
  function BatchSize(numValid: nat): int {
    Min(ResultsLimit - numValid, MaxBatchSize)
  }

  /** `combinedJobs.slice(i, Math.min(i + batchSize, combinedJobs.length))`:
      the next batch, taken from position `i`. */
  function NextBatch(jobs: seq<Combined>, i: nat, batchSize: nat): (b: seq<Combined>)
    requires i < |jobs| && 0 < batchSize
    ensures |b| == Min(batchSize, |jobs| - i)
    ensures 0 < |b| <= batchSize && i + |b| <= |jobs|
    ensures b == jobs[i..i + |b|]
  {
    jobs[i..Min(i + batchSize, |jobs|)]
  }

  /** The batches the loop hands to validation, the valid-job count it ends
      with, and whether it left because a validation threw. */
  datatype Run = Run(batches: seq<seq<Combined>>, numValid: nat, aborted: bool)

  /** The loop from index `i` with `numValid` valid jobs so far, `done`
      holding the batches already validated.  `validation` maps a batch to
      the number of valid jobs `validateJobBatch` reports for it; a batch it
      does not hold is one whose validation throws. */
  function RunBatches(jobs: seq<Combined>, i: nat, numValid: nat, done: seq<seq<Combined>>,
                      validation: map<seq<Combined>, nat>): Run
    requires i <= |jobs|
    decreases |jobs| - i
  {
    if i == |jobs| || numValid >= ResultsLimit then Run(done, numValid, false)
    else
      var batch := NextBatch(jobs, i, BatchSize(numValid));
      if batch !in validation then Run(done + [batch], numValid, true)
      else RunBatches(jobs, i + |batch|, numValid + validation[batch], done + [batch], validation)
  }

  /** The whole loop over the merged jobs. */
  function Batches(jobs: seq<Combined>, validation: map<seq<Combined>, nat>): Run {
    RunBatches(jobs, 0, 0, [], validation)
  }

  /** Where the loop stops: at the end of the jobs or at the limit, with
      the batches and count it has. */
  lemma RunBatchesEnd(jobs: seq<Combined>, i: nat, numValid: nat, done: seq<seq<Combined>>,
                      validation: map<seq<Combined>, nat>)
    requires i <= |jobs|
    requires i == |jobs| || numValid >= ResultsLimit
    ensures RunBatches(jobs, i, numValid, done, validation) == Run(done, numValid, false)
  {
  }

  /** A batch whose validation succeeds leaves the loop on course: the run
      from after it is the run from before it. */
  lemma RunBatchesNext(jobs: seq<Combined>, i: nat, numValid: nat, done: seq<seq<Combined>>,
                       validation: map<seq<Combined>, nat>, batch: seq<Combined>, total: Run)
    requires i < |jobs| && numValid < ResultsLimit
    requires batch == NextBatch(jobs, i, BatchSize(numValid)) && batch in validation
    requires RunBatches(jobs, i, numValid, done, validation) == total
    ensures RunBatches(jobs, i + |batch|, numValid + validation[batch], done + [batch], validation) == total
  {
  }

  /** A batch whose validation throws is the loop's last, and the count is
      the one from before it. */
  lemma RunBatchesAborts(jobs: seq<Combined>, i: nat, numValid: nat, done: seq<seq<Combined>>,
                       validation: map<seq<Combined>, nat>, batch: seq<Combined>, total: Run)
    requires i < |jobs| && numValid < ResultsLimit
    requires batch == NextBatch(jobs, i, BatchSize(numValid)) && batch !in validation
    requires RunBatches(jobs, i, numValid, done, validation) == total
    ensures total == Run(done + [batch], numValid, true)
  {
  }

  /** The `while` loop of `combineResults`: the steps it takes are those of
      the batches `Batches` describes. */
  method ProcessBatches(jobs: seq<Combined>, validation: map<seq<Combined>, nat>)
    returns (log: seq<DbStep>, numValid: nat, aborted: bool)
    ensures log == Blocks(Batches(jobs, validation).batches)
    ensures numValid == Batches(jobs, validation).numValid
    ensures aborted == Batches(jobs, validation).aborted
  {
    log := [];
    numValid := 0;
    aborted := false;
    var batchSize := MaxBatchSize;
    var i := 0;
    ghost var done: seq<seq<Combined>> := [];
    while i < |jobs|
      invariant 0 <= i <= |jobs|
      invariant log == Blocks(done)
      invariant RunBatches(jobs, i, numValid, done, validation) == Batches(jobs, validation)
      invariant !aborted
      invariant batchSize == BatchSize(numValid)
      decreases |jobs| - i
    {
      if numValid >= ResultsLimit {
        RunBatchesEnd(jobs, i, numValid, done, validation);
        break;
      }
      var batch := NextBatch(jobs, i, batchSize);
      var inserts := InsertPendingRows(batch);
      log := log + (inserts + [Emit, ValidateBatch(batch), Emit]);
      BlocksSnoc(done, batch);
      if batch !in validation {
        RunBatchesAborts(jobs, i, numValid, done, validation, batch, Batches(jobs, validation));
        done := done + [batch];
        aborted := true;
        return;
      }
      RunBatchesNext(jobs, i, numValid, done, validation, batch, Batches(jobs, validation));
      done := done + [batch];
      numValid := numValid + validation[batch];
      i := i + |batch|;
      batchSize := Min(ResultsLimit - numValid, MaxBatchSize);
    }
    RunBatchesEnd(jobs, i, numValid, done, validation);
  }

  /** The batches of a run are consecutive from the front of the jobs, and
      jobs are left over only when the limit was reached or a validation
      threw. */
  predicate CoversAPrefix(jobs: seq<Combined>, r: Run) {
    var f := Flatten(r.batches);
    |f| <= |jobs| && f == jobs[..|f|] &&
    (|f| < |jobs| ==> r.numValid >= ResultsLimit || r.aborted)
  }

  /** From any point of the loop the batches go on covering the jobs from
      the front. */
  lemma {:induction false} RunCoversAPrefix(jobs: seq<Combined>, i: nat, numValid: nat, done: seq<seq<Combined>>,
                                            validation: map<seq<Combined>, nat>)
    requires i <= |jobs| && Flatten(done) == jobs[..i]
    ensures CoversAPrefix(jobs, RunBatches(jobs, i, numValid, done, validation))
    decreases |jobs| - i
  {
    if i < |jobs| && numValid < ResultsLimit {
      var batch := NextBatch(jobs, i, BatchSize(numValid));
      var end := i + |batch|;
      RunBatchesStep(jobs, i, numValid, done, validation, batch);
      var next := done + [batch];
      FlattenSnoc(done, batch);
      assert jobs[..i] + jobs[i..end] == jobs[..end];
      if batch in validation {
        RunCoversAPrefix(jobs, end, numValid + validation[batch], next, validation);
      } else {
        assert CoversAPrefix(jobs, Run(next, numValid, true));
      }
    } else {
      RunBatchesEnd(jobs, i, numValid, done, validation);
      assert CoversAPrefix(jobs, Run(done, numValid, false));
    }
  }

  /** The loop validates consecutive batches from the front, and it leaves
      jobs unvalidated only when the limit was reached or a validation
      threw. */
  lemma BatchesCoverAPrefix(jobs: seq<Combined>, validation: map<seq<Combined>, nat>)
    ensures var f := Flatten(Batches(jobs, validation).batches);
            |f| <= |jobs| && f == jobs[..|f|] &&
            (|f| < |jobs| ==> Batches(jobs, validation).numValid >= ResultsLimit || Batches(jobs, validation).aborted)
  {
    RunCoversAPrefix(jobs, 0, 0, [], validation);
    assert CoversAPrefix(jobs, Batches(jobs, validation));
  }

  /** Batches are never empty and hold at most 20 jobs. */
  lemma {:induction false} RunBatchSizes(jobs: seq<Combined>, i: nat, numValid: nat, done: seq<seq<Combined>>,
                                         validation: map<seq<Combined>, nat>)
    requires i <= |jobs|
    requires forall k :: 0 <= k < |done| ==> 0 < |done[k]| <= MaxBatchSize
    ensures var bs := RunBatches(jobs, i, numValid, done, validation).batches;
            forall k :: 0 <= k < |bs| ==> 0 < |bs[k]| <= MaxBatchSize
    decreases |jobs| - i
  {
    if i < |jobs| && numValid < ResultsLimit {
      var batch := NextBatch(jobs, i, BatchSize(numValid));
      var end := i + |batch|;
      RunBatchesStep(jobs, i, numValid, done, validation, batch);
      var next := done + [batch];
      forall k | 0 <= k < |next| ensures 0 < |next[k]| <= MaxBatchSize {
        if k < |done| {
          assert next[k] == done[k];
        }
      }
      if batch in validation {
        RunBatchSizes(jobs, end, numValid + validation[batch], next, validation);
      }
    }
  }

  /** The jobs handed to validation, batch after batch. */
  function Validated(log: seq<DbStep>): seq<Combined> {
    if |log| == 0 then []
    else (if log[0].ValidateBatch? then log[0].jobs else []) + Validated(log[1..])
  }

  lemma {:induction false} ValidatedAppend(a: seq<DbStep>, b: seq<DbStep>)
    ensures Validated(a + b) == Validated(a) + Validated(b)
  {
    if |a| == 0 {
      assert a + b == b;
    } else {
      assert (a + b)[1..] == a[1..] + b;
      ValidatedAppend(a[1..], b);
    }
  }

  lemma {:induction false} NoneValidatedInInserts(batch: seq<Combined>)
    ensures Validated(Inserts(batch)) == []
  {
    if |batch| > 0 {
      var init := batch[..|batch| - 1];
      NoneValidatedInInserts(init);
      ValidatedAppend(Inserts(init), [InsertPending(batch[|batch| - 1].id, batch[|batch| - 1].source)]);
    }
  }

  /** `validateJobBatch` is called on every batch, in order, and on nothing
      else. */
  lemma {:induction false} ValidatedAreTheBatches(batches: seq<seq<Combined>>)
    ensures Validated(Blocks(batches)) == Flatten(batches)
  {
    if |batches| > 0 {
      var init := batches[..|batches| - 1];
      var last := batches[|batches| - 1];
      ValidatedAreTheBatches(init);
      var tail := [Emit, ValidateBatch(last), Emit];
      ValidatedAppend(Inserts(last), tail);
      NoneValidatedInInserts(last);
      assert Validated(tail[1..][1..]) == [] by {
        assert tail[1..][1..][1..] == [];
      }
      assert Validated(tail[1..]) == last;
      ValidatedAppend(Blocks(init), Block(last));
      FlattenSnoc(init, last);
      assert init + [last] == batches;
    }
  }

  /** Every job handed to `validateJobBatch` already has its pending row. */
  lemma {:induction false} InsertedBeforeValidated(batches: seq<seq<Combined>>, p: nat, j: nat)
    requires p < |Blocks(batches)| && Blocks(batches)[p].ValidateBatch?
    requires j < |Blocks(batches)[p].jobs|
    ensures var job := Blocks(batches)[p].jobs[j];
            exists q :: 0 <= q < p && Blocks(batches)[q] == InsertPending(job.id, job.source)
  {
    var init := batches[..|batches| - 1];
    var last := batches[|batches| - 1];
    var a := Blocks(init);
    var b := Block(last);
    assert Blocks(batches) == a + b;
    if p < |a| {
      InsertedBeforeValidated(init, p, j);
      var job := a[p].jobs[j];
      var q :| 0 <= q < p && a[q] == InsertPending(job.id, job.source);
      assert Blocks(batches)[q] == a[q];
    } else {
      InsertsAreInserts(last);
      var k := p - |a|;
      assert b[k].ValidateBatch?;
      if k < |last| {
        assert false;
      }
      assert k == |last| + 1;
      assert Blocks(batches)[|a| + j] == b[j] == Inserts(last)[j];
    }
  }

  /** The valid jobs of the batches that were validated. */
  function ValidSum(batches: seq<seq<Combined>>, validation: map<seq<Combined>, nat>): nat {
    if |batches| == 0 then 0
    else
      var last := batches[|batches| - 1];
      ValidSum(batches[..|batches| - 1], validation) + (if last in validation then validation[last] else 0)
  }

  /** One more batch adds what validation reported for it, nothing when its
      validation threw. */
  lemma ValidSumSnoc(done: seq<seq<Combined>>, batch: seq<Combined>, validation: map<seq<Combined>, nat>)
    ensures ValidSum(done + [batch], validation)
            == ValidSum(done, validation) + (if batch in validation then validation[batch] else 0)
  {
    assert (done + [batch])[..|done|] == done;
  }

  /** One turn of the loop while it goes on: the next batch is validated
      and the loop continues after it, or its validation throws and the
      loop ends with it. */
  lemma RunBatchesStep(jobs: seq<Combined>, i: nat, numValid: nat, done: seq<seq<Combined>>,
                       validation: map<seq<Combined>, nat>, batch: seq<Combined>)
    requires i < |jobs| && numValid < ResultsLimit
    requires batch == NextBatch(jobs, i, BatchSize(numValid))
    ensures batch !in validation ==> RunBatches(jobs, i, numValid, done, validation) == Run(done + [batch], numValid, true)
    ensures batch in validation ==>
              RunBatches(jobs, i, numValid, done, validation)
              == RunBatches(jobs, i + |batch|, numValid + validation[batch], done + [batch], validation)
  {
  }

  lemma {:induction false} RunCountsValidJobs(jobs: seq<Combined>, i: nat, numValid: nat, done: seq<seq<Combined>>,
                                              validation: map<seq<Combined>, nat>)
    requires i <= |jobs| && numValid == ValidSum(done, validation)
    ensures var r := RunBatches(jobs, i, numValid, done, validation);
            r.numValid == ValidSum(r.batches, validation)
    decreases |jobs| - i
  {
    if i < |jobs| && numValid < ResultsLimit {
      var batch := NextBatch(jobs, i, BatchSize(numValid));
      var end := i + |batch|;
      RunBatchesStep(jobs, i, numValid, done, validation, batch);
      ValidSumSnoc(done, batch, validation);
      if batch in validation {
        RunCountsValidJobs(jobs, end, numValid + validation[batch], done + [batch], validation);
      }
    }
  }

  /** Every batch of the run but the last was validated, and the run was
      cut short exactly when the last one's validation threw. */
  predicate AbortsOnlyOnLast(r: Run, validation: map<seq<Combined>, nat>) {
    (forall k :: 0 <= k < |r.batches| - 1 ==> r.batches[k] in validation) &&
    (r.aborted <==> |r.batches| > 0 && r.batches[|r.batches| - 1] !in validation)
  }

  lemma {:induction false} RunAbortsOnLastBatch(jobs: seq<Combined>, i: nat, numValid: nat, done: seq<seq<Combined>>,
                                                validation: map<seq<Combined>, nat>)
    requires i <= |jobs|
    requires forall k :: 0 <= k < |done| ==> done[k] in validation
    ensures AbortsOnlyOnLast(RunBatches(jobs, i, numValid, done, validation), validation)
    decreases |jobs| - i
  {
    if i < |jobs| && numValid < ResultsLimit {
      var batch := NextBatch(jobs, i, BatchSize(numValid));
      var end := i + |batch|;
      RunBatchesStep(jobs, i, numValid, done, validation, batch);
      var next := done + [batch];
      if batch in validation {
        forall k | 0 <= k < |next| ensures next[k] in validation {
          if k < |done| {
            assert next[k] == done[k];
          }
        }
        RunAbortsOnLastBatch(jobs, end, numValid + validation[batch], next, validation);
      } else {
        forall k | 0 <= k < |next| - 1 ensures next[k] in validation {
          assert next[k] == done[k];
        }
        assert AbortsOnlyOnLast(Run(next, numValid, true), validation);
      }
    } else {
      RunBatchesEnd(jobs, i, numValid, done, validation);
      assert AbortsOnlyOnLast(Run(done, numValid, false), validation);
    }
  }

  /** The count the loop ends with adds up the valid jobs of its batches;
      only the last batch can be one whose validation threw, and the loop
      was cut short by a throw exactly when it was. */
  lemma ValidCountIsTheSum(jobs: seq<Combined>, validation: map<seq<Combined>, nat>)
    ensures var r := Batches(jobs, validation);
            r.numValid == ValidSum(r.batches, validation) &&
            (forall k :: 0 <= k < |r.batches| - 1 ==> r.batches[k] in validation) &&
            (r.aborted <==> |r.batches| > 0 && r.batches[|r.batches| - 1] !in validation)
  {
    RunCountsValidJobs(jobs, 0, 0, [], validation);
    RunAbortsOnLastBatch(jobs, 0, 0, [], validation);
    assert AbortsOnlyOnLast(Batches(jobs, validation), validation);
  }

  /** The first batch holds the first 20 jobs, or all of them when there are
      fewer. */
  lemma FirstBatchIsTwenty(jobs: seq<Combined>, validation: map<seq<Combined>, nat>)
    requires |jobs| > 0
    ensures |Batches(jobs, validation).batches| > 0
    ensures Batches(jobs, validation).batches[0] == jobs[..Min(MaxBatchSize, |jobs|)]
  {
    var batch := NextBatch(jobs, 0, BatchSize(0));
    assert batch == jobs[..Min(MaxBatchSize, |jobs|)];
    assert [] + [batch] == [batch];
    RunBatchesStep(jobs, 0, 0, [], validation, batch);
    if batch in validation {
      RunKeepsDone(jobs, |batch|, validation[batch], [batch], validation);
    }
  }

  /** The loop only ever adds batches. */
  lemma {:induction false} RunKeepsDone(jobs: seq<Combined>, i: nat, numValid: nat, done: seq<seq<Combined>>,
                                        validation: map<seq<Combined>, nat>)
    requires i <= |jobs|
    ensures var bs := RunBatches(jobs, i, numValid, done, validation).batches;
            |done| <= |bs| && bs[..|done|] == done
    decreases |jobs| - i
  {
    if i < |jobs| && numValid < ResultsLimit {
      var batch := NextBatch(jobs, i, BatchSize(numValid));
      var end := i + |batch|;
      RunBatchesStep(jobs, i, numValid, done, validation, batch);
      assert (done + [batch])[..|done|] == done;
      if batch in validation {
        RunKeepsDone(jobs, end, numValid + validation[batch], done + [batch], validation);
        var bs := RunBatches(jobs, i, numValid, done, validation).batches;
        assert bs[..|done|] == bs[..|done| + 1][..|done|];
      }
    }
  }
}
