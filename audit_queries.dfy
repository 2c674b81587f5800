/**
 * The two reporting queries over the `audit_events` table, as pure functions
 * of the row sequence: rows are grouped by interaction, each group's date is
 * the earliest `created_on` of ALL its rows, groups are kept when that date
 * lies in the inclusive window, and the kept groups are ordered by date.
 */
module AuditQueries {
  import opened Wrappers
  import opened AuditModel
  import opened AuditTable
  import opened Collation
  import opened Seqs
  import opened Interactions

  /** Some row of the table belongs to interaction `id`. */
  predicate HasInteraction(rows: seq<Row>, id: Uuid)
  {
    exists r :: r in rows && r.interactionId == id
  }

  /** The interaction ids of the table, each once (`GROUP BY interaction_id`). */
  function DistinctIds(rows: seq<Row>): (ids: seq<Uuid>)
    ensures forall id :: id in ids <==> HasInteraction(rows, id)
    ensures Distinct(ids)
  {
    if rows == [] then []
    else
      var rest := DistinctIds(rows[1..]);
      assert forall r :: r in rows <==> r == rows[0] || r in rows[1..];
      if rows[0].interactionId in rest then rest else [rows[0].interactionId] + rest
  }

  /** `MIN(created_on)` over every row of the interaction (0 for an id without rows, which no result holds). */
  function InteractionDate(rows: seq<Row>, id: Uuid): (date: int)
    ensures HasInteraction(rows, id) ==> exists r :: r in rows && r.interactionId == id && r.createdOn == date
    ensures forall r :: r in rows && r.interactionId == id ==> date <= r.createdOn
  {
    if rows == [] then 0
    else
      var first := rows[0];
      var rest := InteractionDate(rows[1..], id);
      assert forall r :: r in rows <==> r == first || r in rows[1..];
      if first.interactionId != id then rest
      else if !HasInteraction(rows[1..], id) || first.createdOn <= rest then first.createdOn
      else rest
  }

  /** The date key the queries order and filter by. */
  function DateOf(rows: seq<Row>): Uuid -> int
  {
    (id: Uuid) => InteractionDate(rows, id)
  }

  /** `interaction_date BETWEEN :start_date AND :end_date`, both bounds inclusive. */
  function InWindowOf(rows: seq<Row>, dates: AuditDates): Uuid -> bool
  {
    (id: Uuid) => InWindow(InteractionDate(rows, id), dates)
  }

  /**
   * The interactions both queries return, in result order: every group whose
   * date is in the window, each once, by non-decreasing date.
   */
  function WindowIds(rows: seq<Row>, dates: AuditDates): (ids: seq<Uuid>)
    ensures forall id :: id in ids <==> HasInteraction(rows, id) && dates.start <= InteractionDate(rows, id) <= dates.end
    ensures Distinct(ids)
    ensures SortedBy(ids, DateOf(rows))
  {
    var key := DateOf(rows);
    var kept := Filter(DistinctIds(rows), InWindowOf(rows, dates));
    FilterDistinct(DistinctIds(rows), InWindowOf(rows, dates));
    SortByCorrect(kept, key);
    SortByDistinct(kept, key);
    SortBy(kept, key)
  }

  /** The text columns the interactions query aggregates. */
  datatype Column = SystemMessageColumn | UserMessageColumn | ResultColumn | ErrorMessageColumn | CauseErrorMessageColumn

  function Get(r: Row, c: Column): Str
  {
    match c
    case SystemMessageColumn => r.systemMessage
    case UserMessageColumn => r.userMessage
    case ResultColumn => r.result
    case ErrorMessageColumn => r.errorMessage
    case CauseErrorMessageColumn => r.causeErrorMessage
  }

  /** A row the `FILTER (WHERE event_type = ...)` of a group admits. */
  predicate Candidate(r: Row, id: Uuid, eventType: AuditEventType)
  {
    r.interactionId == id && r.eventType == Discriminator(eventType)
  }

  /**
   * `MAX(column) FILTER (WHERE event_type = ...)` for one group: the greatest
   * non-null value among the group's rows of that kind, or null if there is none.
   */
  function MaxColumn(rows: seq<Row>, id: Uuid, eventType: AuditEventType, c: Column): (m: Str)
    ensures m.None? <==> forall r :: r in rows && Candidate(r, id, eventType) ==> Get(r, c).None?
    ensures m.Some? ==> exists r :: r in rows && Candidate(r, id, eventType) && Get(r, c) == m
  {
    if rows == [] then None
    else
      var rest := MaxColumn(rows[1..], id, eventType, c);
      assert forall r :: r in rows <==> r == rows[0] || r in rows[1..];
      if Candidate(rows[0], id, eventType) then Greatest(Get(rows[0], c), rest) else rest
  }

  /** No non-null candidate exceeds the maximum. */
  lemma {:induction false} MaxColumnIsGreatest(rows: seq<Row>, id: Uuid, eventType: AuditEventType, c: Column, r: Row)
    requires r in rows && Candidate(r, id, eventType) && Get(r, c).Some?
    ensures MaxColumn(rows, id, eventType, c).Some?
    ensures TextLe(Get(r, c).value, MaxColumn(rows, id, eventType, c).value)
  {
    var rest := MaxColumn(rows[1..], id, eventType, c);
    if r == rows[0] {
    } else {
      assert r in rows[1..];
      MaxColumnIsGreatest(rows[1..], id, eventType, c, r);
      if Candidate(rows[0], id, eventType) {
        TextLeTransitive(Get(r, c).value, rest.value, MaxColumn(rows, id, eventType, c).value);
      }
    }
  }

  /** When every non-null candidate holds the same text, that text is the maximum. */
  lemma MaxColumnSingleValue(rows: seq<Row>, id: Uuid, eventType: AuditEventType, c: Column, text: string)
    requires exists r :: r in rows && Candidate(r, id, eventType) && Get(r, c) == Some(text)
    requires forall r :: r in rows && Candidate(r, id, eventType) && Get(r, c).Some? ==> Get(r, c) == Some(text)
    ensures MaxColumn(rows, id, eventType, c) == Some(text)
  {
  }

  /** A group with a single row of the filtered kind takes that row's value, null or not. */
  lemma SoleCandidate(rows: seq<Row>, w: Row, id: Uuid, eventType: AuditEventType, c: Column)
    requires w in rows && Candidate(w, id, eventType)
    requires forall r :: r in rows && Candidate(r, id, eventType) ==> r == w
    ensures MaxColumn(rows, id, eventType, c) == Get(w, c)
  {
  }

  /** One row of the interactions query: the group's date and its five aggregated texts. */
  function GroupInteraction(rows: seq<Row>, id: Uuid): (i: Interaction)
    ensures i.interactionId == id && i.interactionDate == InteractionDate(rows, id)
    ensures i.systemMessage == MaxColumn(rows, id, SERVICE_STARTED, SystemMessageColumn)
    ensures i.userMessage == MaxColumn(rows, id, SERVICE_STARTED, UserMessageColumn)
    ensures i.result == MaxColumn(rows, id, SERVICE_COMPLETED, ResultColumn)
    ensures i.errorMessage == MaxColumn(rows, id, SERVICE_ERROR, ErrorMessageColumn)
    ensures i.causeErrorMessage == MaxColumn(rows, id, SERVICE_ERROR, CauseErrorMessageColumn)
  {
    Interaction(
      id,
      InteractionDate(rows, id),
      MaxColumn(rows, id, SERVICE_STARTED, SystemMessageColumn),
      MaxColumn(rows, id, SERVICE_STARTED, UserMessageColumn),
      MaxColumn(rows, id, SERVICE_COMPLETED, ResultColumn),
      MaxColumn(rows, id, SERVICE_ERROR, ErrorMessageColumn),
      MaxColumn(rows, id, SERVICE_ERROR, CauseErrorMessageColumn))
  }

  /** `INTERACTIONS_NATIVE_QUERY` wrapped with its window (`getLLMInteractions`): one group per window id, in order. */
  function InteractionsQuery(rows: seq<Row>, dates: AuditDates): (r: Interactions)
    ensures r.auditDates == dates
    ensures |r.interactions| == |WindowIds(rows, dates)|
    ensures forall i :: 0 <= i < |r.interactions| ==> r.interactions[i] == GroupInteraction(rows, WindowIds(rows, dates)[i])
  {
    var ids := WindowIds(rows, dates);
    Interactions(dates, seq(|ids|, i requires 0 <= i < |ids| => GroupInteraction(rows, ids[i])))
  }

  /**
   * What the interactions query returns: exactly the interactions whose
   * earliest event lies in the window, each once, as its aggregated group, by
   * non-decreasing date.
   */
  lemma InteractionsQueryCorrect(rows: seq<Row>, dates: AuditDates)
    ensures var r := InteractionsQuery(rows, dates);
            forall x :: x in r.interactions ==>
              HasInteraction(rows, x.interactionId) && InWindow(x.interactionDate, dates) &&
              x == GroupInteraction(rows, x.interactionId)
    ensures var r := InteractionsQuery(rows, dates);
            forall id :: HasInteraction(rows, id) && InWindow(InteractionDate(rows, id), dates) ==>
              exists x :: x in r.interactions && x.interactionId == id
    ensures var r := InteractionsQuery(rows, dates);
            forall i, j :: 0 <= i < j < |r.interactions| ==>
              r.interactions[i].interactionId != r.interactions[j].interactionId &&
              r.interactions[i].interactionDate <= r.interactions[j].interactionDate
  {
    var r := InteractionsQuery(rows, dates);
    var ids := WindowIds(rows, dates);
    var found := r.interactions;
    forall x | x in found
      ensures HasInteraction(rows, x.interactionId) && InWindow(x.interactionDate, dates)
      ensures x == GroupInteraction(rows, x.interactionId)
    {
      var k :| 0 <= k < |found| && found[k] == x;
      assert ids[k] in ids;
    }
    forall id | HasInteraction(rows, id) && InWindow(InteractionDate(rows, id), dates)
      ensures exists x :: x in found && x.interactionId == id
    {
      var k :| 0 <= k < |ids| && ids[k] == id;
      assert found[k].interactionId == id;
    }
    forall i, j | 0 <= i < j < |found|
      ensures found[i].interactionId != found[j].interactionId
      ensures found[i].interactionDate <= found[j].interactionDate
    {
      assert DateOf(rows)(ids[i]) <= DateOf(rows)(ids[j]);
    }
  }

  /** The window is applied to the interaction's earliest event: one earlier event outside it excludes the whole interaction. */
  lemma EarlierEventExcludes(rows: seq<Row>, dates: AuditDates, r: Row)
    requires r in rows && r.createdOn < dates.start
    ensures forall x :: x in InteractionsQuery(rows, dates).interactions ==> x.interactionId != r.interactionId
  {
    InteractionsQueryCorrect(rows, dates);
  }

  /** Status derivation from the table: no non-null SERVICE_ERROR message in the group means SUCCESS. */
  lemma NoErrorMessageMeansSuccess(rows: seq<Row>, id: Uuid)
    requires forall r :: r in rows && Candidate(r, id, SERVICE_ERROR) ==> r.errorMessage.None?
    ensures GroupInteraction(rows, id).GetStatus() == SUCCESS
  {
    assert forall r :: r in rows && Candidate(r, id, SERVICE_ERROR) ==> Get(r, ErrorMessageColumn).None?;
  }

  /** A group whose non-null SERVICE_ERROR messages are all non-blank, with at least one of them, reports FAILURE. */
  lemma NonBlankErrorMeansFailure(rows: seq<Row>, id: Uuid)
    requires exists r :: r in rows && Candidate(r, id, SERVICE_ERROR) && r.errorMessage.Some?
    requires forall r :: r in rows && Candidate(r, id, SERVICE_ERROR) && r.errorMessage.Some? ==>
               HasNonWhitespace(r.errorMessage.value)
    ensures GroupInteraction(rows, id).GetStatus() == FAILURE
  {
    var m := MaxColumn(rows, id, SERVICE_ERROR, ErrorMessageColumn);
    var w :| w in rows && Candidate(w, id, SERVICE_ERROR) && w.errorMessage.Some?;
    assert Get(w, ErrorMessageColumn).Some?;
    var r :| r in rows && Candidate(r, id, SERVICE_ERROR) && Get(r, ErrorMessageColumn) == m;
  }

  /** Appending a row of another interaction leaves a group's date unchanged. */
  lemma {:induction false} InteractionDateAppendOther(rows: seq<Row>, row: Row, id: Uuid)
    requires row.interactionId != id
    ensures InteractionDate(rows + [row], id) == InteractionDate(rows, id)
  {
    if rows != [] {
      assert (rows + [row])[1..] == rows[1..] + [row];
      InteractionDateAppendOther(rows[1..], row, id);
      assert HasInteraction(rows[1..] + [row], id) <==> HasInteraction(rows[1..], id) by {
        assert forall r :: r in rows[1..] + [row] <==> r in rows[1..] || r == row;
      }
    }
  }

  /** Appending a row of another interaction leaves a group's aggregated texts unchanged. */
  lemma {:induction false} MaxColumnAppendOther(rows: seq<Row>, row: Row, id: Uuid, eventType: AuditEventType, c: Column)
    requires row.interactionId != id
    ensures MaxColumn(rows + [row], id, eventType, c) == MaxColumn(rows, id, eventType, c)
  {
    if rows != [] {
      assert (rows + [row])[1..] == rows[1..] + [row];
      MaxColumnAppendOther(rows[1..], row, id, eventType, c);
    }
  }

  /** Persisting an event of one interaction never changes what the interactions query reports for another. */
  lemma GroupInteractionAppendOther(rows: seq<Row>, row: Row, id: Uuid)
    requires row.interactionId != id
    ensures GroupInteraction(rows + [row], id) == GroupInteraction(rows, id)
  {
    InteractionDateAppendOther(rows, row, id);
    MaxColumnAppendOther(rows, row, id, SERVICE_STARTED, SystemMessageColumn);
    MaxColumnAppendOther(rows, row, id, SERVICE_STARTED, UserMessageColumn);
    MaxColumnAppendOther(rows, row, id, SERVICE_COMPLETED, ResultColumn);
    MaxColumnAppendOther(rows, row, id, SERVICE_ERROR, ErrorMessageColumn);
    MaxColumnAppendOther(rows, row, id, SERVICE_ERROR, CauseErrorMessageColumn);
  }

  /** A table holding one interaction only has exactly that id. */
  lemma {:induction false} DistinctIdsOfOneInteraction(rows: seq<Row>, id: Uuid)
    requires rows != []
    requires forall r :: r in rows ==> r.interactionId == id
    ensures DistinctIds(rows) == [id]
  {
    if rows[1..] != [] {
      assert forall r :: r in rows[1..] ==> r in rows;
      DistinctIdsOfOneInteraction(rows[1..], id);
    }
  }

  /**
   * The events of one interaction whose earliest timestamp lies in the window
   * are reported as exactly one interaction: their group.
   */
  lemma OneInteractionReportedOnce(rows: seq<Row>, id: Uuid, dates: AuditDates)
    requires rows != []
    requires forall r :: r in rows ==> r.interactionId == id
    requires InWindow(InteractionDate(rows, id), dates)
    ensures InteractionsQuery(rows, dates).interactions == [GroupInteraction(rows, id)]
  {
    DistinctIdsOfOneInteraction(rows, id);
    var kept := Filter([id], InWindowOf(rows, dates));
    assert kept == [id];
    assert SortBy(kept, DateOf(rows)) == Insert(id, [], DateOf(rows)) == [id];
  }
}
