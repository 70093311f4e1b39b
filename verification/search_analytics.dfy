/** `GET /api/analytics/searches`: the signed-in user's searches with a
    summary: how many there are (in all, since the start of today, since
    the start of the day a week ago), the end-step durations to average,
    how many searches ended in each status, and per step name the total
    duration and the number of timed runs.

    The searches are the user's rows, newest first; the clock's day starts
    are inputs. Averages and percentages are kept as the sum and count (or
    count and total) they are computed from. */
module SearchAnalytics {
  import opened Wrappers
  import opened Seqs
  import Http

  /** A timed step of the agent's run; a missing duration is 0. */
  datatype StepRecord = StepRecord(name: string, duration: int)

  /** The columns the analytics read. */
  datatype Search = Search(status: string, createdAt: int, steps: Option<seq<StepRecord>>)

  // ------------------------------------------------------------ tallies

  /** One key of a tally: the amounts added for it and how many there were. */
  datatype Entry = Entry(key: string, total: int, count: nat)

  /** Adding `amount` under `key`: the key's entry is updated in place, or a
      new entry is appended. */
  function Bump(es: seq<Entry>, key: string, amount: int): seq<Entry> {
    if |es| == 0 then [Entry(key, amount, 1)]
    else if es[0].key == key then [Entry(key, es[0].total + amount, es[0].count + 1)] + es[1..]
    else [es[0]] + Bump(es[1..], key, amount)
  }

  /** The tally of keyed amounts, entries in the order keys first appear. */
  function Tally(items: seq<(string, int)>): seq<Entry> {
    if |items| == 0 then []
    else Bump(Tally(items[..|items| - 1]), items[|items| - 1].0, items[|items| - 1].1)
  }

  function Keys(es: seq<Entry>): set<string> {
    if |es| == 0 then {} else {es[0].key} + Keys(es[1..])
  }

  /** No key has two entries. */
  predicate DistinctKeys(es: seq<Entry>) {
    |es| == 0 || (es[0].key !in Keys(es[1..]) && DistinctKeys(es[1..]))
  }

  /** Every entry has had something added. */
  predicate AllCounted(es: seq<Entry>) {
    |es| == 0 || (es[0].count >= 1 && AllCounted(es[1..]))
  }

  function CountOf(es: seq<Entry>, key: string): nat {
    if |es| == 0 then 0 else if es[0].key == key then es[0].count else CountOf(es[1..], key)
  }

  function TotalOf(es: seq<Entry>, key: string): int {
    if |es| == 0 then 0 else if es[0].key == key then es[0].total else TotalOf(es[1..], key)
  }

  function SumCounts(es: seq<Entry>): nat {
    if |es| == 0 then 0 else es[0].count + SumCounts(es[1..])
  }

  /** How many items have the key, and the sum of their amounts. */
  function KeyCount(items: seq<(string, int)>, key: string): nat {
    if |items| == 0 then 0
    else KeyCount(items[..|items| - 1], key) + (if items[|items| - 1].0 == key then 1 else 0)
  }

  function KeyTotal(items: seq<(string, int)>, key: string): int {
    if |items| == 0 then 0
    else KeyTotal(items[..|items| - 1], key) + (if items[|items| - 1].0 == key then items[|items| - 1].1 else 0)
  }

  function ItemKeys(items: seq<(string, int)>): set<string> {
    if |items| == 0 then {} else ItemKeys(items[..|items| - 1]) + {items[|items| - 1].0}
  }

  /** An addition adds its key and keeps the keys distinct and counted. */
  lemma {:induction false} BumpShape(es: seq<Entry>, key: string, amount: int)
    ensures Keys(Bump(es, key, amount)) == Keys(es) + {key}
    ensures DistinctKeys(es) ==> DistinctKeys(Bump(es, key, amount))
    ensures AllCounted(es) ==> AllCounted(Bump(es, key, amount))
    ensures SumCounts(Bump(es, key, amount)) == SumCounts(es) + 1
    decreases |es|
  {
    if |es| > 0 {
      var b := Bump(es, key, amount);
      if es[0].key == key {
        assert b[1..] == es[1..];
      } else {
        BumpShape(es[1..], key, amount);
        assert b[1..] == Bump(es[1..], key, amount);
      }
    }
  }

  /** An addition counts and sums under its key only. */
  lemma {:induction false} BumpValues(es: seq<Entry>, key: string, amount: int, k: string)
    requires DistinctKeys(es)
    ensures CountOf(Bump(es, key, amount), k) == CountOf(es, k) + (if k == key then 1 else 0)
    ensures TotalOf(Bump(es, key, amount), k) == TotalOf(es, k) + (if k == key then amount else 0)
    decreases |es|
  {
    if |es| == 0 {
    } else if es[0].key == key {
      var b := Bump(es, key, amount);
      assert b[1..] == es[1..];
      if k != key {
        assert b[0].key != k;
      }
    } else {
      BumpValues(es[1..], key, amount, k);
      var b := Bump(es, key, amount);
      assert b[1..] == Bump(es[1..], key, amount);
    }
  }

  /** A key absent from a tally counts nothing. */
  lemma {:induction false} AbsentKeyCountsNothing(es: seq<Entry>, k: string)
    requires k !in Keys(es)
    ensures CountOf(es, k) == 0 && TotalOf(es, k) == 0
    decreases |es|
  {
    if |es| > 0 {
      AbsentKeyCountsNothing(es[1..], k);
    }
  }

  /** A tally has one entry per distinct key, none of them empty; each
      entry counts and sums exactly the items with its key; and the counts
      add up to the number of items. */
  lemma {:induction false} TallyFacts(items: seq<(string, int)>, k: string)
    ensures var t := Tally(items);
            DistinctKeys(t) && AllCounted(t) && Keys(t) == ItemKeys(items) && SumCounts(t) == |items|
            && CountOf(t, k) == KeyCount(items, k) && TotalOf(t, k) == KeyTotal(items, k)
    decreases |items|
  {
    if |items| > 0 {
      var init := items[..|items| - 1];
      TallyFacts(init, k);
      BumpShape(Tally(init), items[|items| - 1].0, items[|items| - 1].1);
      BumpValues(Tally(init), items[|items| - 1].0, items[|items| - 1].1, k);
    }
  }

  /** The tally after one more item. */
  lemma TallySnoc(items: seq<(string, int)>, item: (string, int))
    ensures Tally(items + [item]) == Bump(Tally(items), item.0, item.1)
  {
    assert (items + [item])[..|items|] == items;
  }

  // ------------------------------------------------------------ statuses

  /** One item per search, keyed by its status. */
  function StatusItems(ss: seq<Search>): (r: seq<(string, int)>)
    ensures |r| == |ss|
  {
    if |ss| == 0 then [] else StatusItems(ss[..|ss| - 1]) + [(ss[|ss| - 1].status, 1)]
  }

  /** The `statusCounts` reduce: each search adds one under its status. */
  method StatusCounts(ss: seq<Search>) returns (acc: seq<Entry>)
    ensures acc == Tally(StatusItems(ss))
  {
    acc := [];
    var i := 0;
    while i < |ss|
      invariant 0 <= i <= |ss|
      invariant acc == Tally(StatusItems(ss[..i]))
    {
      assert ss[..i + 1][..i] == ss[..i];
      TallySnoc(StatusItems(ss[..i]), (ss[i].status, 1));
      acc := Bump(acc, ss[i].status, 1);
      i := i + 1;
    }
    assert ss[..i] == ss;
  }

  predicate HasStatus(status: string, s: Search) { s.status == status }

  /** The count for a status is the number of searches with it. */
  lemma {:induction false} StatusCountIsCount(ss: seq<Search>, status: string)
    ensures KeyCount(StatusItems(ss), status) == Count(ss, s => HasStatus(status, s))
    decreases |ss|
  {
    if |ss| > 0 {
      var p := s => HasStatus(status, s);
      var init, last := ss[..|ss| - 1], ss[|ss| - 1];
      StatusCountIsCount(init, status);
      CountConcat(init, [last], p);
      assert init + [last] == ss;
      assert Count([last], p) == if last.status == status then 1 else 0;
      assert StatusItems(ss)[..|ss| - 1] == StatusItems(init);
    }
  }

  // ------------------------------------------------------------ steps

  /** The steps of one search that are timed: not the `end` step, and with
      a non-zero duration. */
  function Timed(steps: seq<StepRecord>): seq<(string, int)> {
    if |steps| == 0 then []
    else
      var last := steps[|steps| - 1];
      Timed(steps[..|steps| - 1]) + (if last.name != "end" && last.duration != 0 then [(last.name, last.duration)] else [])
  }

  /** The timed steps of all searches with steps, search by search. */
  function StepItems(ss: seq<Search>): seq<(string, int)> {
    if |ss| == 0 then []
    else
      var last := ss[|ss| - 1];
      StepItems(ss[..|ss| - 1]) + (if last.steps.Some? then Timed(last.steps.value) else [])
  }

  /** No item is an `end` step or an untimed one. */
  lemma {:induction false} StepItemsAreTimed(ss: seq<Search>)
    ensures forall i :: 0 <= i < |StepItems(ss)| ==> StepItems(ss)[i].0 != "end" && StepItems(ss)[i].1 != 0
    decreases |ss|
  {
    if |ss| > 0 {
      StepItemsAreTimed(ss[..|ss| - 1]);
      if ss[|ss| - 1].steps.Some? {
        TimedIsTimed(ss[|ss| - 1].steps.value);
      }
    }
  }

  lemma {:induction false} TimedIsTimed(steps: seq<StepRecord>)
    ensures forall i :: 0 <= i < |Timed(steps)| ==> Timed(steps)[i].0 != "end" && Timed(steps)[i].1 != 0
    decreases |steps|
  {
    if |steps| > 0 {
      TimedIsTimed(steps[..|steps| - 1]);
    }
  }

  /** The items a timed tally never gets a key for. */
  lemma {:induction false} NoEndKey(items: seq<(string, int)>)
    requires forall i :: 0 <= i < |items| ==> items[i].0 != "end"
    ensures "end" !in ItemKeys(items)
    decreases |items|
  {
    if |items| > 0 {
      NoEndKey(items[..|items| - 1]);
    }
  }

  /** The step-duration tally has no `end` entry, and every entry has at
      least one timed run, so its average is defined. */
  lemma StepTallyHasNoEnd(ss: seq<Search>)
    ensures "end" !in Keys(Tally(StepItems(ss)))
    ensures AllCounted(Tally(StepItems(ss)))
  {
    StepItemsAreTimed(ss);
    NoEndKey(StepItems(ss));
    TallyFacts(StepItems(ss), "end");
  }

  /** One pass of the inner `forEach`. */
  method AddStep(acc: seq<Entry>, ghost before: seq<(string, int)>, steps: seq<StepRecord>, j: nat)
    returns (acc': seq<Entry>)
    requires j < |steps|
    requires acc == Tally(before + Timed(steps[..j]))
    ensures acc' == Tally(before + Timed(steps[..j + 1]))
  {
    var step := steps[j];
    assert steps[..j + 1][..j] == steps[..j];
    assert steps[..j + 1][j] == step;
    if step.name != "end" && step.duration != 0 {
      assert Timed(steps[..j + 1]) == Timed(steps[..j]) + [(step.name, step.duration)];
      assert before + Timed(steps[..j + 1]) == (before + Timed(steps[..j])) + [(step.name, step.duration)];
      TallySnoc(before + Timed(steps[..j]), (step.name, step.duration));
      acc' := Bump(acc, step.name, step.duration);
    } else {
      assert Timed(steps[..j + 1]) == Timed(steps[..j]);
      acc' := acc;
    }
  }

  /** One pass of the outer `forEach`: the search's timed steps, in order. */
  method AddSearch(acc: seq<Entry>, ss: seq<Search>, i: nat) returns (acc': seq<Entry>)
    requires i < |ss|
    requires acc == Tally(StepItems(ss[..i]))
    ensures acc' == Tally(StepItems(ss[..i + 1]))
  {
    assert ss[..i + 1][..i] == ss[..i];
    assert ss[..i + 1][i] == ss[i];
    acc' := acc;
    if ss[i].steps.Some? {
      var steps := ss[i].steps.value;
      var before := StepItems(ss[..i]);
      assert steps[..0] == [];
      assert before + Timed(steps[..0]) == before;
      var j := 0;
      while j < |steps|
        invariant 0 <= j <= |steps|
        invariant acc' == Tally(before + Timed(steps[..j]))
      {
        acc' := AddStep(acc', before, steps, j);
        j := j + 1;
      }
      assert steps[..j] == steps;
      assert StepItems(ss[..i + 1]) == before + Timed(steps);
    } else {
      assert StepItems(ss[..i + 1]) == StepItems(ss[..i]) + [];
      assert StepItems(ss[..i]) + [] == StepItems(ss[..i]);
    }
  }

  /** The nested `forEach` filling `stepDurations`. */
  method StepDurations(ss: seq<Search>) returns (acc: seq<Entry>)
    ensures acc == Tally(StepItems(ss))
  {
    acc := [];
    var i := 0;
    while i < |ss|
      invariant 0 <= i <= |ss|
      invariant acc == Tally(StepItems(ss[..i]))
    {
      acc := AddSearch(acc, ss, i);
      i := i + 1;
    }
    assert ss[..i] == ss;
  }

  // ------------------------------------------------------------ durations

  /** `steps.some(step => step.name === "end")`. */
  predicate SomeEnd(steps: seq<StepRecord>) {
    |steps| > 0 && (steps[0].name == "end" || SomeEnd(steps[1..]))
  }

  predicate HasEnd(s: Search) {
    s.steps.Some? && SomeEnd(s.steps.value)
  }

  /** The duration of the first `end` step; 0 when there is none. */
  function EndDuration(steps: seq<StepRecord>): int {
    if |steps| == 0 then 0
    else if steps[0].name == "end" then steps[0].duration
    else EndDuration(steps[1..])
  }

  /** The average's numerator and denominator: the end-step durations of
      the searches that have an end step, and how many of them there are. */
  function EndDurations(ss: seq<Search>): (r: (int, nat))
    ensures r.1 <= |ss|
    ensures r.1 == 0 ==> r.0 == 0
  {
    if |ss| == 0 then (0, 0)
    else
      var rest := EndDurations(ss[1..]);
      if HasEnd(ss[0]) then (EndDuration(ss[0].steps.value) + rest.0, rest.1 + 1) else rest
  }

  /** The denominator counts exactly the searches with an end step. */
  lemma {:induction false} EndDurationsCountEnds(ss: seq<Search>)
    ensures EndDurations(ss).1 == Count(ss, HasEnd)
    decreases |ss|
  {
    if |ss| > 0 {
      EndDurationsCountEnds(ss[1..]);
    }
  }

  // ------------------------------------------------------------ response

  predicate Since(start: int, s: Search) { s.createdAt >= start }

  /** A later day start admits no more searches than an earlier one. */
  lemma {:induction false} LaterStartCountsFewer(ss: seq<Search>, early: int, late: int)
    requires early <= late
    ensures Count(ss, s => Since(late, s)) <= Count(ss, s => Since(early, s))
    decreases |ss|
  {
    if |ss| > 0 {
      LaterStartCountsFewer(ss[1..], early, late);
    }
  }

  /** The week's count includes today's whenever the week starts first. */
  lemma WeekIncludesToday(ss: seq<Search>, todayStart: int, weekStart: int)
    ensures weekStart <= todayStart ==>
              Count(ss, s => Since(todayStart, s)) <= Count(ss, s => Since(weekStart, s))
  {
    if weekStart <= todayStart {
      LaterStartCountsFewer(ss, weekStart, todayStart);
    }
  }

  datatype Summary = Summary(total: nat, today: nat, week: nat, durationSum: int, durationCount: nat,
                             statuses: seq<Entry>, steps: seq<Entry>, searches: seq<Search>)

  /** The handler: no user is a 401; otherwise the summary of the user's
      searches, which are passed back as they were read. */
  function Analytics(userId: Option<string>, ss: seq<Search>, todayStart: int, weekStart: int)
    : (r: Http.Response<Summary>)
    ensures r.Error? <==> userId.None? || userId.value == ""
    ensures r.Error? ==> r.code == Http.Unauthorized && r.message == "Unauthorized"
    ensures r.Ok? ==> r.body.searches == ss
    ensures r.Ok? ==> r.body.total == |ss| && SumCounts(r.body.statuses) == |ss|
    ensures r.Ok? ==> forall k :: CountOf(r.body.statuses, k) == Count(ss, s => HasStatus(k, s))
    ensures r.Ok? ==> DistinctKeys(r.body.statuses) && DistinctKeys(r.body.steps)
    ensures r.Ok? ==> "end" !in Keys(r.body.steps) && AllCounted(r.body.steps)
    ensures r.Ok? ==> forall k :: CountOf(r.body.steps, k) == KeyCount(StepItems(ss), k)
                                  && TotalOf(r.body.steps, k) == KeyTotal(StepItems(ss), k)
    ensures r.Ok? ==> r.body.today == Count(ss, s => Since(todayStart, s))
                      && r.body.week == Count(ss, s => Since(weekStart, s))
    ensures r.Ok? ==> r.body.durationCount == Count(ss, HasEnd)
                      && r.body.durationSum == EndDurations(ss).0
                      && (r.body.durationCount == 0 ==> r.body.durationSum == 0)
    ensures r.Ok? && weekStart <= todayStart ==> r.body.today <= r.body.week
  {
    if userId.None? || userId.value == "" then Http.Error(Http.Unauthorized, "Unauthorized")
    else
      var statuses := Tally(StatusItems(ss));
      var steps := Tally(StepItems(ss));
      TallyFacts(StatusItems(ss), "");
      TallyFacts(StepItems(ss), "");
      assert forall k :: CountOf(statuses, k) == Count(ss, s => HasStatus(k, s)) by {
        forall k
          ensures CountOf(statuses, k) == Count(ss, s => HasStatus(k, s))
        {
          TallyFacts(StatusItems(ss), k);
          StatusCountIsCount(ss, k);
        }
      }
      assert forall k :: CountOf(steps, k) == KeyCount(StepItems(ss), k)
                         && TotalOf(steps, k) == KeyTotal(StepItems(ss), k) by {
        forall k
          ensures CountOf(steps, k) == KeyCount(StepItems(ss), k) && TotalOf(steps, k) == KeyTotal(StepItems(ss), k)
        {
          TallyFacts(StepItems(ss), k);
        }
      }
      WeekIncludesToday(ss, todayStart, weekStart);
      StepTallyHasNoEnd(ss);
      EndDurationsCountEnds(ss);
      var durations := EndDurations(ss);
      Http.Ok(Summary(|ss|, Count(ss, s => Since(todayStart, s)), Count(ss, s => Since(weekStart, s)),
                      durations.0, durations.1, statuses, steps, ss))
  }
}
