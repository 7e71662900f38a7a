/** The append-only event log: sequenced, immutable, idempotent on explicit
    event ids, read by exclusive cursor and page, and projected to a file by
    paging until an empty page. */
module EventLog {
  import opened Wrappers
  import opened JsonValue

  datatype EventBody = EventBody(
    eventType: string, aggregateType: string, aggregateId: string,
    experimentId: Option<string>, taskId: Option<string>, roundNumber: Option<int>, payload: Json)
  {
    /** The CHECK of the table. */
    predicate Storable() {
      roundNumber.Some? ==> roundNumber.value >= 1
    }
  }

  datatype EventRecord = EventRecord(sequence: int, eventId: string, body: EventBody, occurredAt: real)

  datatype EventError = InvalidArgument | IdempotencyConflict | CheckFailed

  /** Every row was given the sequence after its predecessor's and passes the
      table's check, and event ids are unique. */
  ghost predicate WellFormed(events: seq<EventRecord>) {
    && (forall i | 0 <= i < |events| :: events[i].sequence == i + 1 && events[i].body.Storable())
    && (forall i, j | 0 <= i < j < |events| :: events[i].eventId != events[j].eventId)
  }

  /** The filters of `read`; an absent filter matches everything. */
  datatype Filter = Filter(aggregate: Option<(string, string)>, experimentId: Option<string>, taskId: Option<string>) {
    predicate Matches(e: EventRecord) {
      && (aggregate.Some? ==> (e.body.aggregateType, e.body.aggregateId) == aggregate.value)
      && (experimentId.Some? ==> e.body.experimentId == experimentId)
      && (taskId.Some? ==> e.body.taskId == taskId)
    }
  }

  /** All matching rows after the cursor, in sequence order. */
  function Select(events: seq<EventRecord>, after: int, filter: Filter): (rows: seq<EventRecord>)
    decreases |events|
  {
    if events == [] then []
    else
      (if events[0].sequence > after && filter.Matches(events[0]) then [events[0]] else [])
      + Select(events[1..], after, filter)
  }

  function Take(rows: seq<EventRecord>, limit: int): seq<EventRecord>
    requires limit >= 0
  {
    if |rows| <= limit then rows else rows[..limit]
  }

  lemma {:induction false} SelectConcat(front: seq<EventRecord>, back: seq<EventRecord>, after: int, filter: Filter)
    ensures Select(front + back, after, filter) == Select(front, after, filter) + Select(back, after, filter)
    decreases |front|
  {
    if front == [] {
      assert front + back == back;
    } else {
      assert (front + back)[1..] == front[1..] + back;
      SelectConcat(front[1..], back, after, filter);
    }
  }

  lemma {:induction false} SelectAll(events: seq<EventRecord>, lower: int, higher: int, filter: Filter)
    requires lower <= higher && forall i | 0 <= i < |events| :: events[i].sequence > higher
    ensures Select(events, lower, filter) == Select(events, higher, filter)
    decreases |events|
  {
    if events != [] {
      SelectAll(events[1..], lower, higher, filter);
    }
  }

  lemma {:induction false} SelectedRows(events: seq<EventRecord>, after: int, filter: Filter)
    requires Increasing(events)
    ensures var rows := Select(events, after, filter);
            && (forall e :: e in rows <==> e in events && e.sequence > after && filter.Matches(e))
            && Increasing(rows)
    decreases |events|
  {
    hide Filter.Matches, Increasing, Select;
    SelectStep(events, after, filter);
    if events == [] {
      NothingIncreases();
    } else {
      var head, rest := events[0], Select(events[1..], after, filter);
      assert events == [head] + events[1..];
      TailIncreases(events);
      SelectedRows(events[1..], after, filter);
      forall e | e in rest ensures head.sequence < e.sequence {
        HeadPrecedes(events, e);
      }
      ConsIncreases(head, rest);
    }
  }

  lemma NothingIncreases()
    ensures Increasing([])
  {
  }

  lemma ConsIncreases(head: EventRecord, rest: seq<EventRecord>)
    requires Increasing(rest) && forall e | e in rest :: head.sequence < e.sequence
    ensures Increasing([head] + rest)
  {
  }

  ghost predicate Increasing(events: seq<EventRecord>) {
    forall i, j | 0 <= i < j < |events| :: events[i].sequence < events[j].sequence
  }

  /** Moving the cursor to a returned row splits the selection there. */
  lemma {:induction false} CursorSplits(events: seq<EventRecord>, after: int, filter: Filter, k: nat)
    requires Increasing(events) && k < |Select(events, after, filter)|
    ensures var rows := Select(events, after, filter);
            Select(events, rows[k].sequence, filter) == rows[k + 1..]
    decreases |events|, 1
  {
    hide Filter.Matches, Select, Increasing;
    SelectStep(events, after, filter);
    var head, tail := events[0], events[1..];
    TailIncreases(events);
    var rest := Select(tail, after, filter);
    if head.sequence > after && filter.Matches(head) {
      if k == 0 {
        SelectAll(tail, after, head.sequence, filter);
        SelectStep(events, head.sequence, filter);
      } else {
        assert ([head] + rest)[k + 1..] == rest[k..];
        CursorSplitsLater(events, after, filter, k - 1);
      }
    } else {
      CursorSplitsLater(events, after, filter, k);
    }
  }

  lemma {:induction false} CursorSplitsLater(events: seq<EventRecord>, after: int, filter: Filter, k: nat)
    requires events != [] && Increasing(events) && k < |Select(events[1..], after, filter)|
    ensures var rest := Select(events[1..], after, filter);
            Select(events, rest[k].sequence, filter) == rest[k + 1..]
    decreases |events|, 0
  {
    hide Filter.Matches, Select, Increasing;
    var rest := Select(events[1..], after, filter);
    TailIncreases(events);
    SelectedRows(events[1..], after, filter);
    assert rest[k] in rest;
    CursorSplits(events[1..], after, filter, k);
    HeadPrecedes(events, rest[k]);
    SelectStep(events, rest[k].sequence, filter);
  }

  lemma SelectStep(events: seq<EventRecord>, after: int, filter: Filter)
    ensures events == [] ==> Select(events, after, filter) == []
    ensures events != [] ==>
              Select(events, after, filter)
              == if events[0].sequence > after && filter.Matches(events[0])
                 then [events[0]] + Select(events[1..], after, filter) else Select(events[1..], after, filter)
  {
  }

  /** Reading one more row. */
  lemma ReadOne(rows: seq<EventRecord>, rest: seq<EventRecord>, after: int, filter: Filter)
    requires rest != []
    ensures rows + Select(rest, after, filter)
         == (if rest[0].sequence > after && filter.Matches(rest[0]) then rows + [rest[0]] else rows)
            + Select(rest[1..], after, filter)
  {
    hide Select, Filter.Matches;
    SelectStep(rest, after, filter);
  }

  lemma PageIsFull(rows: seq<EventRecord>, rest: seq<EventRecord>, limit: nat)
    requires |rows| <= limit && (rest == [] || |rows| == limit)
    ensures Take(rows + rest, limit) == rows
  {
  }

  lemma TailIncreases(events: seq<EventRecord>)
    requires Increasing(events)
    ensures events != [] ==>
              Increasing(events[1..]) && forall i | 0 <= i < |events[1..]| :: events[1..][i].sequence > events[0].sequence
  {
  }

  lemma HeadPrecedes(events: seq<EventRecord>, e: EventRecord)
    requires Increasing(events) && events != [] && e in events[1..]
    ensures events[0].sequence < e.sequence
  {
    var k :| 0 <= k < |events[1..]| && events[1..][k] == e;
    assert events[k + 1] == e;
  }

  class Log {
    var events: seq<EventRecord>

    ghost predicate Valid()
      reads this
    {
      WellFormed(events)
    }

    constructor ()
      ensures Valid() && events == []
    {
      events := [];
    }

    /** Appends once per event id: an identical replay returns the stored row,
        a different event under the same id is a conflict, and a new event that
        fails the table's check is refused. */
    method Append(eventId: string, body: EventBody, requestedAt: Option<real>, now: real)
      returns (answer: Result<EventRecord, EventError>)
      requires Valid()
      modifies this
      ensures Valid()
      ensures (forall i | 0 <= i < |old(events)| :: old(events)[i].eventId != eventId) && !body.Storable() ==>
                answer == Err(CheckFailed) && events == old(events)
      ensures (forall i | 0 <= i < |old(events)| :: old(events)[i].eventId != eventId) && body.Storable() ==>
                && answer.Ok? && events == old(events) + [answer.value]
                && answer.value == EventRecord(|old(events)| + 1, eventId, body,
                                               if requestedAt.Some? then requestedAt.value else now)
      ensures forall i | 0 <= i < |old(events)| && old(events)[i].eventId == eventId ::
                && events == old(events)
                && answer == (if old(events)[i].body == body
                                 && (requestedAt.Some? ==> old(events)[i].occurredAt == requestedAt.value)
                              then Ok(old(events)[i]) else Err(IdempotencyConflict))
    {
      var i := 0;
      while i < |events|
        invariant 0 <= i <= |events|
        invariant forall j | 0 <= j < i :: events[j].eventId != eventId
      {
        if events[i].eventId == eventId {
          var same := events[i].body == body && (requestedAt.None? || events[i].occurredAt == requestedAt.value);
          return if same then Ok(events[i]) else Err(IdempotencyConflict);
        }
        i := i + 1;
      }
      if !body.Storable() {
        return Err(CheckFailed);
      }
      var record := EventRecord(|events| + 1, eventId, body, if requestedAt.Some? then requestedAt.value else now);
      events := events + [record];
      answer := Ok(record);
    }

    /** One page: matching rows after an exclusive cursor, in sequence order. */
    method Read(after: int, limit: int, filter: Filter) returns (page: Result<seq<EventRecord>, EventError>)
      requires Valid()
      ensures after < 0 || !(1 <= limit <= 10_000) ==> page == Err(InvalidArgument)
      ensures after >= 0 && 1 <= limit <= 10_000 ==> page == Ok(Take(Select(events, after, filter), limit))
    {
      if after < 0 || limit < 1 || limit > 10_000 {
        return Err(InvalidArgument);
      }
      hide Select, Filter.Matches, WellFormed, Take;
      var rows: seq<EventRecord> := [];
      var i := 0;
      assert events[0..] == events;
      while i < |events| && |rows| < limit
        invariant 0 <= i <= |events| && |rows| <= limit
        invariant Select(events, after, filter) == rows + Select(events[i..], after, filter)
      {
        ReadOne(rows, events[i..], after, filter);
        assert events[i..][1..] == events[i + 1..];
        if events[i].sequence > after && filter.Matches(events[i]) {
          rows := rows + [events[i]];
        }
        i := i + 1;
      }
      SelectStep(events[i..], after, filter);
      PageIsFull(rows, Select(events[i..], after, filter), limit);
      page := Ok(rows);
    }

    /** Rows committed by other connections. */
    method CommitOthers(arrivals: seq<(string, EventBody, real)>)
      requires Valid()
      modifies this
      ensures Valid() && old(events) <= events
    {
      for i := 0 to |arrivals|
        invariant Valid() && old(events) <= events
      {
        var _ := Append(arrivals[i].0, arrivals[i].1, None, arrivals[i].2);
      }
    }

    /** The events.jsonl projection.  `arrivals[i]` is what other connections
        commit before the i-th page is read; the projection is complete: it
        holds exactly the experiment's events in sequence order as the log
        stands when the last, empty page is read. */
    method MaterializeEvents(experimentId: string, arrivals: seq<seq<(string, EventBody, real)>>)
      returns (values: seq<EventRecord>)
      requires Valid()
      modifies this
      ensures Valid() && old(events) <= events
      ensures values == Select(events, 0, Filter(None, Some(experimentId), None))
    {
      hide Select, WellFormed;
      var filter := Filter(None, Some(experimentId), None);
      values := [];
      var cursor := 0;
      var pageNo := 0;
      while true
        invariant Valid() && old(events) <= events && 0 <= cursor <= |events|
        invariant Select(events, 0, filter) == values + Select(events, cursor, filter)
        decreases if pageNo < |arrivals| then |arrivals| - pageNo else 0, |events| - cursor
      {
        if pageNo < |arrivals| {
          ghost var before := events;
          CommitOthers(arrivals[pageNo]);
          ghost var more := NewRowsFollow(before, events, cursor, filter);
          assert values + Select(before, cursor, filter) + more == values + (Select(before, cursor, filter) + more);
          pageNo := pageNo + 1;
        }
        var page := Read(cursor, 10_000, filter);
        var rows := page.value;
        if rows == [] {
          break;
        }
        cursor := NextCursor(cursor, filter, rows);
        values := values + rows;
      }
    }

    /** The cursor after a non-empty page. */
    method NextCursor(cursor: int, filter: Filter, rows: seq<EventRecord>) returns (next: int)
      requires Valid() && 0 <= cursor && rows != [] && rows == Take(Select(events, cursor, filter), 10_000)
      ensures cursor < next <= |events|
      ensures Select(events, cursor, filter) == rows + Select(events, next, filter)
    {
      next := rows[|rows| - 1].sequence;
      ghost var remaining := Select(events, cursor, filter);
      SelectedRows(events, cursor, filter);
      assert rows[|rows| - 1] == remaining[|rows| - 1] && remaining[|rows| - 1] in remaining;
      CursorSplits(events, cursor, filter, |rows| - 1);
    }
  }

  lemma NewRowsFollow(before: seq<EventRecord>, after: seq<EventRecord>, cursor: int, filter: Filter)
    returns (more: seq<EventRecord>)
    requires WellFormed(after) && before <= after && 0 <= cursor <= |before|
    ensures Select(after, 0, filter) == Select(before, 0, filter) + more
    ensures Select(after, cursor, filter) == Select(before, cursor, filter) + more
  {
    var added := after[|before|..];
    assert after == before + added;
    SelectConcat(before, added, 0, filter);
    SelectConcat(before, added, cursor, filter);
    SelectAll(added, 0, cursor, filter);
    more := Select(added, 0, filter);
  }

  /** What the projection contains, without reference to paging. */
  lemma ProjectionIsComplete(events: seq<EventRecord>, experimentId: string)
    requires WellFormed(events)
    ensures var rows := Select(events, 0, Filter(None, Some(experimentId), None));
            && (forall e :: e in rows <==> e in events && e.body.experimentId == Some(experimentId))
            && Increasing(rows)
  {
    SelectedRows(events, 0, Filter(None, Some(experimentId), None));
    assert forall e | e in events :: e.sequence > 0;
  }
}
