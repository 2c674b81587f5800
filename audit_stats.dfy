/**
 * `STATS_NATIVE_QUERY`: per in-window interaction, the number of service
 * errors, of output-guardrail executions and of failed ones, and two window
 * averages taken over the in-window interactions with at least one failed
 * output guardrail. PostgreSQL `AVG` over integer counts is exact, so the
 * averages are `real`s.
 */
module AuditStatistics {
  import opened Wrappers
  import opened AuditModel
  import opened AuditTable
  import opened Seqs
  import opened AuditQueries
  import opened AuditEventMapper
  import LC = LifecycleEvents

  /** `COUNT(*) FILTER (WHERE event_type = ...)` for one group. */
  function CountEvents(rows: seq<Row>, id: Uuid, eventType: AuditEventType): (n: nat)
    ensures n <= |rows|
    ensures n == 0 <==> forall r :: r in rows ==> !Candidate(r, id, eventType)
  {
    if rows == [] then 0
    else
      assert forall r :: r in rows <==> r == rows[0] || r in rows[1..];
      (if Candidate(rows[0], id, eventType) then 1 else 0) + CountEvents(rows[1..], id, eventType)
  }

  /** `guardrail_result IN ('FATAL', 'FAILURE')`. */
  predicate IsGuardrailFailure(r: Row)
  {
    r.guardrailResult == Some("FATAL") || r.guardrailResult == Some("FAILURE")
  }

  /** The group's output-guardrail executions whose result is FATAL or FAILURE. */
  function CountGuardrailFailures(rows: seq<Row>, id: Uuid): (n: nat)
    ensures n == 0 <==> forall r :: r in rows && Candidate(r, id, OUTPUT_GUARDRAIL_EXECUTED) ==> !IsGuardrailFailure(r)
  {
    if rows == [] then 0
    else
      assert forall r :: r in rows <==> r == rows[0] || r in rows[1..];
      (if Candidate(rows[0], id, OUTPUT_GUARDRAIL_EXECUTED) && IsGuardrailFailure(rows[0]) then 1 else 0)
        + CountGuardrailFailures(rows[1..], id)
  }

  /** Failed executions are executions: `total_output_guardrail_failures <= total_output_guardrail_executions`. */
  lemma {:induction false} FailuresAtMostExecutions(rows: seq<Row>, id: Uuid)
    ensures CountGuardrailFailures(rows, id) <= CountEvents(rows, id, OUTPUT_GUARDRAIL_EXECUTED)
  {
    if rows != [] {
      FailuresAtMostExecutions(rows[1..], id);
    }
  }

  /** Appending a row adds one to the count of its own group and kind, and nothing elsewhere. */
  lemma {:induction false} CountEventsAppend(rows: seq<Row>, row: Row, id: Uuid, eventType: AuditEventType)
    ensures CountEvents(rows + [row], id, eventType) ==
            CountEvents(rows, id, eventType) + (if Candidate(row, id, eventType) then 1 else 0)
  {
    if rows != [] {
      assert (rows + [row])[1..] == rows[1..] + [row];
      CountEventsAppend(rows[1..], row, id, eventType);
    }
  }

  /**
   * Appending a row adds one to its group's failure count when it is a
   * FATAL or FAILURE output-guardrail execution of that group, and nothing
   * otherwise.
   */
  lemma {:induction false} CountGuardrailFailuresAppend(rows: seq<Row>, row: Row, id: Uuid)
    ensures CountGuardrailFailures(rows + [row], id) ==
            CountGuardrailFailures(rows, id) +
            (if Candidate(row, id, OUTPUT_GUARDRAIL_EXECUTED) && IsGuardrailFailure(row) then 1 else 0)
  {
    if rows != [] {
      assert (rows + [row])[1..] == rows[1..] + [row];
      CountGuardrailFailuresAppend(rows[1..], row, id);
    }
  }

  /**
   * The row persisted for an output-guardrail execution is counted as a
   * failure exactly when the guardrail's result was FATAL or FAILURE.
   */
  lemma OutputGuardrailFailureRow(e: LC.OutputGuardrailExecutedEvent, createdOn: int)
    ensures var r := ToRow(OutputGuardrailToAuditEvent(e), createdOn);
            r.eventType == Discriminator(OUTPUT_GUARDRAIL_EXECUTED) &&
            (IsGuardrailFailure(r) <==> e.result == LC.FATAL || e.result == LC.FAILURE)
  {
  }

  /** The per-group counts the averages are taken over. */
  function ExecutionsOf(rows: seq<Row>): Uuid -> nat
  {
    (id: Uuid) => CountEvents(rows, id, OUTPUT_GUARDRAIL_EXECUTED)
  }

  function FailuresOf(rows: seq<Row>): Uuid -> nat
  {
    (id: Uuid) => CountGuardrailFailures(rows, id)
  }

  function HasFailuresOf(rows: seq<Row>): Uuid -> bool
  {
    (id: Uuid) => CountGuardrailFailures(rows, id) > 0
  }

  /**
   * The rows of the window `AVG(...) FILTER (WHERE total_output_guardrail_failures > 0) OVER ()`
   * ranges over: the in-window interactions with at least one failed output guardrail.
   */
  function FailingIds(rows: seq<Row>, dates: AuditDates): (ids: seq<Uuid>)
    ensures forall id :: id in ids <==> id in WindowIds(rows, dates) && CountGuardrailFailures(rows, id) > 0
    ensures Distinct(ids)
  {
    FilterDistinct(WindowIds(rows, dates), HasFailuresOf(rows));
    Filter(WindowIds(rows, dates), HasFailuresOf(rows))
  }

  /** SQL `AVG` of `f` over `ids`: NULL over no rows, the exact mean otherwise. */
  function Mean(ids: seq<Uuid>, f: Uuid -> nat): (m: Option<real>)
    ensures m.None? <==> ids == []
    ensures m.Some? ==> m.value * |ids| as real == SumBy(ids, f) as real
  {
    if ids == [] then None else Some(SumBy(ids, f) as real / |ids| as real)
  }

  /** One row of the statistics query; an average is NULL when the window it ranges over is empty. */
  datatype InteractionStats = InteractionStats(
    interactionId: Uuid,
    interactionDate: int,
    numLlmFailures: nat,
    totalOutputGuardrailExecutions: nat,
    totalOutputGuardrailFailures: nat,
    avgOutputGuardrailExecutions: Option<real>,
    avgOutputGuardrailFailures: Option<real>)

  /** `AuditStats`: the resolved window and the statistics rows. */
  datatype AuditStats = AuditStats(auditDates: AuditDates, interactionStats: seq<InteractionStats>)

  /**
   * The statistics row of interaction `id`, given the two window averages:
   * each `CASE` yields the window average when the row's own count is
   * positive and 0 otherwise.
   */
  function GroupStats(rows: seq<Row>, id: Uuid, meanExecutions: Option<real>, meanFailures: Option<real>): (s: InteractionStats)
    ensures s.interactionId == id && s.interactionDate == InteractionDate(rows, id)
    ensures s.numLlmFailures == CountEvents(rows, id, SERVICE_ERROR)
    ensures s.totalOutputGuardrailExecutions == CountEvents(rows, id, OUTPUT_GUARDRAIL_EXECUTED)
    ensures s.totalOutputGuardrailFailures == CountGuardrailFailures(rows, id)
    ensures s.avgOutputGuardrailExecutions == if s.totalOutputGuardrailExecutions > 0 then meanExecutions else Some(0.0)
    ensures s.avgOutputGuardrailFailures == if s.totalOutputGuardrailFailures > 0 then meanFailures else Some(0.0)
  {
    var executions := CountEvents(rows, id, OUTPUT_GUARDRAIL_EXECUTED);
    var failures := CountGuardrailFailures(rows, id);
    InteractionStats(
      id,
      InteractionDate(rows, id),
      CountEvents(rows, id, SERVICE_ERROR),
      executions,
      failures,
      if executions > 0 then meanExecutions else Some(0.0),
      if failures > 0 then meanFailures else Some(0.0))
  }

  /** The statistics rows of `ids`, one per id and in the same order, sharing the two window averages. */
  function StatsRows(rows: seq<Row>, ids: seq<Uuid>, meanExecutions: Option<real>, meanFailures: Option<real>)
    : (stats: seq<InteractionStats>)
    ensures |stats| == |ids|
    ensures forall i :: 0 <= i < |ids| ==> stats[i] == GroupStats(rows, ids[i], meanExecutions, meanFailures)
  {
    seq(|ids|, i requires 0 <= i < |ids| => GroupStats(rows, ids[i], meanExecutions, meanFailures))
  }

  /** `STATS_NATIVE_QUERY` wrapped with its window (`getAuditStats`): one row per window id, in order. */
  function StatsQuery(rows: seq<Row>, dates: AuditDates): (r: AuditStats)
    ensures r.auditDates == dates
    ensures |r.interactionStats| == |WindowIds(rows, dates)|
    ensures forall i :: 0 <= i < |r.interactionStats| ==>
              r.interactionStats[i].interactionId == WindowIds(rows, dates)[i] &&
              r.interactionStats[i].interactionDate == InteractionDate(rows, WindowIds(rows, dates)[i])
    ensures forall i :: 0 <= i < |r.interactionStats| ==>
              var failing := FailingIds(rows, dates);
              r.interactionStats[i] ==
              GroupStats(rows, WindowIds(rows, dates)[i], Mean(failing, ExecutionsOf(rows)), Mean(failing, FailuresOf(rows)))
  {
    var ids := WindowIds(rows, dates);
    var failing := FailingIds(rows, dates);
    var meanExecutions := Mean(failing, ExecutionsOf(rows));
    var meanFailures := Mean(failing, FailuresOf(rows));
    AuditStats(dates, StatsRows(rows, ids, meanExecutions, meanFailures))
  }

  /**
   * The statistics query returns exactly the interactions whose earliest
   * event lies in the window, each once, by non-decreasing date.
   */
  lemma StatsQueryRows(rows: seq<Row>, dates: AuditDates)
    ensures var r := StatsQuery(rows, dates);
            forall x :: x in r.interactionStats ==>
              HasInteraction(rows, x.interactionId) && InWindow(x.interactionDate, dates)
    ensures var r := StatsQuery(rows, dates);
            forall id :: HasInteraction(rows, id) && InWindow(InteractionDate(rows, id), dates) ==>
              exists x :: x in r.interactionStats && x.interactionId == id
    ensures var r := StatsQuery(rows, dates);
            forall i, j :: 0 <= i < j < |r.interactionStats| ==>
              r.interactionStats[i].interactionId != r.interactionStats[j].interactionId &&
              r.interactionStats[i].interactionDate <= r.interactionStats[j].interactionDate
  {
    var found := StatsQuery(rows, dates).interactionStats;
    var ids := WindowIds(rows, dates);
    forall x | x in found
      ensures HasInteraction(rows, x.interactionId) && InWindow(x.interactionDate, dates)
    {
      var k :| 0 <= k < |found| && found[k] == x;
      assert ids[k] in ids;
    }
    forall id | HasInteraction(rows, id) && InWindow(InteractionDate(rows, id), dates)
      ensures exists x :: x in found && x.interactionId == id
    {
      var k :| 0 <= k < |ids| && ids[k] == id;
      assert found[k].interactionId == id;
    }
    forall i, j | 0 <= i < j < |found|
      ensures found[i].interactionId != found[j].interactionId
      ensures found[i].interactionDate <= found[j].interactionDate
    {
      assert DateOf(rows)(ids[i]) <= DateOf(rows)(ids[j]);
    }
  }

  /**
   * The counts and the two conditional window averages of every statistics
   * row. Failures never exceed executions. The failures average is 0 on a row
   * without failures and otherwise the mean of the failure counts of the
   * window's failing interactions, the same on every such row. The executions
   * average is 0 on a row without executions and otherwise the mean of the
   * EXECUTION counts of those same failing interactions, which `Mean` makes
   * NULL when none fails.
   */
  lemma StatsQueryAverages(rows: seq<Row>, dates: AuditDates, x: InteractionStats)
    requires x in StatsQuery(rows, dates).interactionStats
    ensures x.numLlmFailures == CountEvents(rows, x.interactionId, SERVICE_ERROR)
    ensures x.totalOutputGuardrailExecutions == CountEvents(rows, x.interactionId, OUTPUT_GUARDRAIL_EXECUTED)
    ensures x.totalOutputGuardrailFailures == CountGuardrailFailures(rows, x.interactionId)
    ensures x.totalOutputGuardrailFailures <= x.totalOutputGuardrailExecutions
    ensures x.totalOutputGuardrailFailures == 0 ==> x.avgOutputGuardrailFailures == Some(0.0)
    ensures x.totalOutputGuardrailFailures > 0 ==>
              var failing := FailingIds(rows, dates);
              failing != [] && x.avgOutputGuardrailFailures == Mean(failing, FailuresOf(rows))
    ensures x.totalOutputGuardrailExecutions == 0 ==> x.avgOutputGuardrailExecutions == Some(0.0)
    ensures x.totalOutputGuardrailExecutions > 0 ==>
              var failing := FailingIds(rows, dates);
              x.avgOutputGuardrailExecutions == Mean(failing, ExecutionsOf(rows))
  {
    var found := StatsQuery(rows, dates).interactionStats;
    var ids := WindowIds(rows, dates);
    var failing := FailingIds(rows, dates);
    var k :| 0 <= k < |found| && found[k] == x;
    var id := ids[k];
    assert x == GroupStats(rows, id, Mean(failing, ExecutionsOf(rows)), Mean(failing, FailuresOf(rows)));
    FailuresAtMostExecutions(rows, id);
    if x.totalOutputGuardrailFailures > 0 {
      assert id in failing;
    }
  }

  /** Every row with a failed output guardrail carries the same failures average, and likewise for executions. */
  lemma StatsAveragesShared(rows: seq<Row>, dates: AuditDates, x: InteractionStats, y: InteractionStats)
    requires x in StatsQuery(rows, dates).interactionStats && y in StatsQuery(rows, dates).interactionStats
    ensures x.totalOutputGuardrailFailures > 0 && y.totalOutputGuardrailFailures > 0 ==>
              x.avgOutputGuardrailFailures == y.avgOutputGuardrailFailures
    ensures x.totalOutputGuardrailExecutions > 0 && y.totalOutputGuardrailExecutions > 0 ==>
              x.avgOutputGuardrailExecutions == y.avgOutputGuardrailExecutions
  {
    var found := StatsQuery(rows, dates).interactionStats;
    var i :| 0 <= i < |found| && found[i] == x;
    var j :| 0 <= j < |found| && found[j] == y;
  }

  /** `AVG` over one interaction is that interaction's own count. */
  lemma MeanOfOne(id: Uuid, f: Uuid -> nat)
    ensures Mean([id], f) == Some(f(id) as real)
  {
    assert SumBy([id], f) == f(id) + SumBy([id][1..], f);
  }

  /**
   * When exactly one in-window interaction has a failed output guardrail,
   * both window averages are that interaction's own counts: every row with
   * failures reports its failure count, and every row with executions, failing
   * or not, reports its execution count.
   */
  lemma OneFailingInteraction(rows: seq<Row>, dates: AuditDates, a: Uuid, x: InteractionStats)
    requires a in WindowIds(rows, dates) && CountGuardrailFailures(rows, a) > 0
    requires forall id :: id in WindowIds(rows, dates) && id != a ==> CountGuardrailFailures(rows, id) == 0
    requires x in StatsQuery(rows, dates).interactionStats
    ensures x.totalOutputGuardrailFailures > 0 ==>
              x.avgOutputGuardrailFailures == Some(CountGuardrailFailures(rows, a) as real)
    ensures x.totalOutputGuardrailExecutions > 0 ==>
              x.avgOutputGuardrailExecutions == Some(CountEvents(rows, a, OUTPUT_GUARDRAIL_EXECUTED) as real)
  {
    var failing := FailingIds(rows, dates);
    DistinctSingleton(failing, a);
    StatsQueryAverages(rows, dates, x);
    MeanOfOne(a, FailuresOf(rows));
    MeanOfOne(a, ExecutionsOf(rows));
  }

  /**
   * Three in-window interactions: A with 2 executions and 1 failure, B with 3
   * executions and none failed, C with none. The failures average is 1 on A's
   * row; the executions average is 2 (A's count alone) on both A's and B's
   * rows; C's row reports 0 for both.
   */
  lemma GuardrailAveragesExample(rows: seq<Row>, dates: AuditDates, a: Uuid, b: Uuid, c: Uuid, x: InteractionStats)
    requires forall id :: id in WindowIds(rows, dates) <==> id == a || id == b || id == c
    requires CountEvents(rows, a, OUTPUT_GUARDRAIL_EXECUTED) == 2 && CountGuardrailFailures(rows, a) == 1
    requires CountEvents(rows, b, OUTPUT_GUARDRAIL_EXECUTED) == 3 && CountGuardrailFailures(rows, b) == 0
    requires CountEvents(rows, c, OUTPUT_GUARDRAIL_EXECUTED) == 0
    requires x in StatsQuery(rows, dates).interactionStats
    ensures x.interactionId == a ==> x.avgOutputGuardrailFailures == Some(1.0) && x.avgOutputGuardrailExecutions == Some(2.0)
    ensures x.interactionId == b ==> x.avgOutputGuardrailFailures == Some(0.0) && x.avgOutputGuardrailExecutions == Some(2.0)
    ensures x.interactionId == c ==> x.avgOutputGuardrailFailures == Some(0.0) && x.avgOutputGuardrailExecutions == Some(0.0)
  {
    FailuresAtMostExecutions(rows, c);
    StatsQueryAverages(rows, dates, x);
    OneFailingInteraction(rows, dates, a, x);
  }
}
