/** The durable update queue of one bot: implicit acknowledgement by offset, bounded backlog. */
module BotQueue {
  import opened Common

  const UPDATE_BACKLOG: nat := 10000

  datatype Row = Row(id: nat, payload: string, delivered: bool)

  predicate InIdOrder(rows: seq<Row>) {
    forall i, j :: 0 <= i < j < |rows| ==> rows[i].id < rows[j].id
  }

  // ------------------------------------------------------------- statements

  function PendingCount(rows: seq<Row>): (n: nat)
    ensures n <= |rows|
  {
    if rows == [] then 0 else (if rows[0].delivered then 0 else 1) + PendingCount(rows[1..])
  }

  /** The backlog rule: an undelivered row stays while fewer than `keep` undelivered rows follow it. */
  function Trim(rows: seq<Row>, keep: nat): seq<Row> {
    if rows == [] then []
    else if rows[0].delivered || PendingCount(rows[1..]) < keep then [rows[0]] + Trim(rows[1..], keep)
    else Trim(rows[1..], keep)
  }

  /** Polling with an offset confirms everything up to it; offset zero confirms nothing. */
  function Confirm(rows: seq<Row>, offset: nat): (r: seq<Row>)
    ensures |r| == |rows|
    ensures forall i :: 0 <= i < |rows| ==>
              r[i] == rows[i].(delivered := rows[i].delivered || (offset > 0 && rows[i].id <= offset))
  {
    seq(|rows|, i requires 0 <= i < |rows| =>
      rows[i].(delivered := rows[i].delivered || (offset > 0 && rows[i].id <= offset)))
  }

  /** The undelivered rows after an offset, oldest first, at most `limit` of them. */
  function Select(rows: seq<Row>, offset: nat, limit: nat): seq<Row> {
    if rows == [] || limit == 0 then []
    else if !rows[0].delivered && rows[0].id > offset then [rows[0]] + Select(rows[1..], offset, limit - 1)
    else Select(rows[1..], offset, limit)
  }

  function Mark(rows: seq<Row>, ids: set<nat>): (r: seq<Row>)
    ensures |r| == |rows|
    ensures forall i :: 0 <= i < |rows| ==> r[i] == rows[i].(delivered := rows[i].delivered || rows[i].id in ids)
  {
    seq(|rows|, i requires 0 <= i < |rows| => rows[i].(delivered := rows[i].delivered || rows[i].id in ids))
  }

  // -------------------------------------------------------------- trimming

  /** Undelivered rows newer than an id: what the subquery of the trim statement ranks by. */
  function Newer(rows: seq<Row>, id: nat): nat {
    if rows == [] then 0
    else (if !rows[0].delivered && rows[0].id > id then 1 else 0) + Newer(rows[1..], id)
  }

  lemma {:induction false} AllNewer(rows: seq<Row>, id: nat)
    requires forall r :: r in rows ==> r.id > id
    ensures Newer(rows, id) == PendingCount(rows)
  {
    if rows != [] {
      AllNewer(rows[1..], id);
    }
  }

  /** Exactly the rows with at least `keep` newer undelivered rows are dropped, and only undelivered ones. */
  lemma {:induction false} TrimDropsOldest(rows: seq<Row>, keep: nat, row: Row)
    requires InIdOrder(rows)
    ensures row in Trim(rows, keep) <==> row in rows && (row.delivered || Newer(rows, row.id) < keep)
  {
    if rows != [] {
      TrimDropsOldest(rows[1..], keep, row);
      assert forall r :: r in rows[1..] ==> r.id > rows[0].id;
      if row == rows[0] {
        AllNewer(rows[1..], row.id);
      }
    }
  }

  lemma {:induction false} TrimmedBacklog(rows: seq<Row>, keep: nat)
    ensures PendingCount(Trim(rows, keep)) == if PendingCount(rows) < keep then PendingCount(rows) else keep
  {
    if rows != [] {
      TrimmedBacklog(rows[1..], keep);
      assert ([rows[0]] + Trim(rows[1..], keep))[1..] == Trim(rows[1..], keep);
    }
  }

  lemma HeadFirst(head: Row, chosen: seq<Row>, rest: seq<Row>)
    requires InIdOrder([head] + rest) && InIdOrder(chosen)
    requires forall r :: r in chosen ==> r in rest
    ensures InIdOrder([head] + chosen)
  {
    forall i | 0 <= i < |chosen| ensures head.id < chosen[i].id {
      assert chosen[i] in chosen && ([head] + rest)[0] == head;
      var j :| 0 <= j < |rest| && rest[j] == chosen[i];
      assert ([head] + rest)[j + 1] == chosen[i];
    }
  }

  lemma {:induction false} TrimAscending(rows: seq<Row>, keep: nat)
    requires InIdOrder(rows)
    ensures InIdOrder(Trim(rows, keep))
    ensures forall r :: r in Trim(rows, keep) ==> r in rows
  {
    if rows != [] {
      TrimAscending(rows[1..], keep);
      assert [rows[0]] + rows[1..] == rows;
      HeadFirst(rows[0], Trim(rows[1..], keep), rows[1..]);
    }
  }

  // --------------------------------------------------------------- polling

  /** Undelivered rows with an id strictly between two. */
  function Between(rows: seq<Row>, low: nat, high: nat): nat {
    if rows == [] then 0
    else (if !rows[0].delivered && low < rows[0].id < high then 1 else 0) + Between(rows[1..], low, high)
  }

  /** A poll hands over exactly the undelivered rows that have fewer than `limit` others before them. */
  lemma {:induction false} SelectMembership(rows: seq<Row>, offset: nat, limit: nat, row: Row)
    requires InIdOrder(rows)
    ensures row in Select(rows, offset, limit) <==>
            row in rows && !row.delivered && row.id > offset && Between(rows, offset, row.id) < limit
  {
    if rows != [] && limit > 0 {
      var head := rows[0];
      assert forall r :: r in rows[1..] ==> r.id > head.id;
      if !head.delivered && head.id > offset {
        SelectMembership(rows[1..], offset, limit - 1, row);
        if row == head {
          NothingBefore(rows[1..], offset, row.id);
        }
      } else {
        SelectMembership(rows[1..], offset, limit, row);
        if row == head {
          NothingBefore(rows[1..], offset, row.id);
        }
      }
    }
  }

  lemma {:induction false} NothingBefore(rows: seq<Row>, low: nat, high: nat)
    requires forall r :: r in rows ==> r.id >= high
    ensures Between(rows, low, high) == 0
  {
    if rows != [] {
      NothingBefore(rows[1..], low, high);
    }
  }

  lemma {:induction false} SelectAscending(rows: seq<Row>, offset: nat, limit: nat)
    requires InIdOrder(rows)
    ensures InIdOrder(Select(rows, offset, limit))
    ensures |Select(rows, offset, limit)| <= limit
    ensures forall r :: r in Select(rows, offset, limit) ==> r in rows
  {
    if rows != [] && limit > 0 {
      var left := if !rows[0].delivered && rows[0].id > offset then limit - 1 else limit;
      SelectAscending(rows[1..], offset, left);
      assert [rows[0]] + rows[1..] == rows;
      HeadFirst(rows[0], Select(rows[1..], offset, left), rows[1..]);
    }
  }

  lemma {:induction false} BetweenMonotone(rows: seq<Row>, low: nat, high: nat, high': nat)
    requires high <= high'
    ensures Between(rows, low, high) <= Between(rows, low, high')
  {
    if rows != [] {
      BetweenMonotone(rows[1..], low, high, high');
    }
  }

  lemma {:induction false} BetweenAfterTrim(rows: seq<Row>, keep: nat, low: nat, high: nat)
    ensures Between(Trim(rows, keep), low, high) <= Between(rows, low, high)
  {
    if rows != [] {
      BetweenAfterTrim(rows[1..], keep, low, high);
      assert ([rows[0]] + Trim(rows[1..], keep))[1..] == Trim(rows[1..], keep);
    }
  }

  lemma {:induction false} BetweenAfterAppend(rows: seq<Row>, row: Row, low: nat, high: nat)
    requires row.id >= high
    ensures Between(rows + [row], low, high) == Between(rows, low, high)
  {
    if rows != [] {
      assert (rows + [row])[1..] == rows[1..] + [row];
      BetweenAfterAppend(rows[1..], row, low, high);
    } else {
      assert (rows + [row])[1..] == [];
    }
  }

  // -------------------------------------------------------------- the queue

  /**
   * The queue beside an unbounded log of everything enqueued, and a client that polls with the
   * last id it processed. `trimmed` and `marked` record which logged updates the backlog rule
   * dropped and which a webhook delivery acknowledged.
   */
  datatype State = State(
    rows: seq<Row>, nextId: nat,
    log: map<nat, string>, trimmed: set<nat>, marked: set<nat>,
    offset: nat, batch: seq<Row>, processed: seq<nat>)

  datatype Action =
    | Enqueue(gap: nat, payload: string)
    | Acknowledge
    | Fetch(limit: nat)
    | Process
    | Crash
    | MarkDelivered(ids: set<nat>)

  function Ids(rows: seq<Row>): set<nat> {
    set r | r in rows :: r.id
  }

  /** The id sequence is shared with other bots, so consecutive ids may leave a gap. */
  function AfterEnqueue(s: State, gap: nat, payload: string): State {
    var id := s.nextId + gap;
    var rows := s.rows + [Row(id, payload, false)];
    var kept := Trim(rows, UPDATE_BACKLOG);
    s.(rows := kept, nextId := id + 1, log := s.log[id := payload], trimmed := s.trimmed + (Ids(rows) - Ids(kept)))
  }

  /** A poll is two statements: what the offset confirms is marked, then the rest is read. */
  function AfterAcknowledge(s: State): State {
    s.(rows := Confirm(s.rows, s.offset))
  }

  function AfterFetch(s: State, limit: nat): State {
    s.(batch := Select(s.rows, s.offset, limit))
  }

  function Step(s: State, a: Action): State {
    match a
    case Enqueue(gap, payload) => AfterEnqueue(s, gap, payload)
    case Acknowledge => AfterAcknowledge(s)
    case Fetch(limit) => AfterFetch(s, limit)
    case Process =>
      if s.batch == [] then s
      else s.(offset := s.batch[0].id, processed := s.processed + [s.batch[0].id], batch := s.batch[1..])
    case Crash => s.(batch := [])
    case MarkDelivered(ids) => s.(rows := Mark(s.rows, ids), marked := s.marked + ids)
  }

  function Run(s: State, actions: seq<Action>): State {
    if actions == [] then s else Step(Run(s, actions[..|actions| - 1]), actions[|actions| - 1])
  }

  const Empty: State := State([], 1, map[], {}, {}, 0, [], [])

  predicate Accounted(s: State, id: nat) {
    id in s.processed || id in s.trimmed || id in s.marked
  }

  ghost predicate RowsInv(s: State) {
    && InIdOrder(s.rows)
    && (forall r :: r in s.rows ==> 0 < r.id < s.nextId && r.id in s.log && s.log[r.id] == r.payload)
    && (forall r :: r in s.rows && r.delivered ==> r.id <= s.offset || r.id in s.marked)
  }

  ghost predicate LogInv(s: State) {
    forall id :: id in s.log ==> 0 < id < s.nextId && (id in Ids(s.rows) || id in s.trimmed)
  }

  ghost predicate TableInv(s: State) {
    RowsInv(s) && LogInv(s) && PendingCount(s.rows) <= UPDATE_BACKLOG
  }

  ghost predicate ClientInv(s: State) {
    && InIdOrder(s.batch)
    && (forall r :: r in s.batch ==> r.id > s.offset && r.id in s.log && s.log[r.id] == r.payload)
    && (forall id :: id in s.log && id <= s.offset ==> Accounted(s, id))
    && (forall id, r :: id in s.log && r in s.batch && s.offset < id <= r.id ==> id in Ids(s.batch) || Accounted(s, id))
    && (forall i, j :: 0 <= i < j < |s.processed| ==> s.processed[i] < s.processed[j])
    && (forall id :: id in s.processed ==> id in s.log && id <= s.offset)
    && s.offset < s.nextId
  }

  ghost predicate Inv(s: State) {
    TableInv(s) && ClientInv(s)
  }

  lemma EnqueueKeepsTable(s: State, gap: nat, payload: string)
    requires TableInv(s) && s.nextId > 0
    ensures TableInv(AfterEnqueue(s, gap, payload))
  {
    EnqueueKeepsRows(s, gap, payload);
    EnqueueCoversLog(s, gap, payload);
    TrimmedBacklog(s.rows + [Row(s.nextId + gap, payload, false)], UPDATE_BACKLOG);
  }

  lemma EnqueueKeepsRows(s: State, gap: nat, payload: string)
    requires TableInv(s) && s.nextId > 0
    ensures RowsInv(AfterEnqueue(s, gap, payload))
  {
    var rows := s.rows + [Row(s.nextId + gap, payload, false)];
    EnqueuedRows(s, rows, s.nextId + gap, payload);
    TrimAscending(rows, UPDATE_BACKLOG);
  }

  lemma EnqueuedRows(s: State, rows: seq<Row>, id: nat, payload: string)
    requires TableInv(s) && id >= s.nextId && rows == s.rows + [Row(id, payload, false)]
    ensures InIdOrder(rows)
    ensures forall r :: r in rows <==> r in s.rows || r == Row(id, payload, false)
  {
    assert forall i :: 0 <= i < |s.rows| ==> s.rows[i] in s.rows;
  }

  lemma EnqueueCoversLog(s: State, gap: nat, payload: string)
    requires TableInv(s) && s.nextId > 0
    ensures LogInv(AfterEnqueue(s, gap, payload))
  {
    var t := AfterEnqueue(s, gap, payload);
    var row := Row(s.nextId + gap, payload, false);
    EnqueuedRows(s, s.rows + [row], row.id, payload);
    forall id | id in t.log ensures 0 < id < t.nextId && (id in Ids(t.rows) || id in t.trimmed) {
      if id == row.id {
        assert row in s.rows + [row];
      } else if id in Ids(s.rows) {
        var r :| r in s.rows && r.id == id;
        assert r in s.rows + [row];
      }
    }
  }

  lemma EnqueueKeepsClient(s: State, gap: nat, payload: string)
    requires Inv(s)
    ensures ClientInv(AfterEnqueue(s, gap, payload))
  {
    var t := AfterEnqueue(s, gap, payload);
    assert forall id :: Accounted(s, id) ==> Accounted(t, id);
  }

  lemma AcknowledgeKeepsInv(s: State)
    requires Inv(s)
    ensures Inv(AfterAcknowledge(s))
  {
    var t := AfterAcknowledge(s);
    ConfirmedCount(s.rows, s.offset);
    forall id | id in t.log ensures id in Ids(t.rows) || id in t.trimmed {
      if id in Ids(s.rows) {
        var i :| 0 <= i < |s.rows| && s.rows[i].id == id;
        assert t.rows[i] in t.rows && t.rows[i].id == id;
      }
    }
    assert forall id :: Accounted(s, id) ==> Accounted(t, id);
  }

  lemma {:induction false} ConfirmedCount(rows: seq<Row>, offset: nat)
    ensures PendingCount(Confirm(rows, offset)) <= PendingCount(rows)
  {
    if rows != [] {
      assert Confirm(rows, offset)[1..] == Confirm(rows[1..], offset);
      ConfirmedCount(rows[1..], offset);
    }
  }

  lemma {:induction false} MarkedCount(rows: seq<Row>, ids: set<nat>)
    ensures PendingCount(Mark(rows, ids)) <= PendingCount(rows)
  {
    if rows != [] {
      assert Mark(rows, ids)[1..] == Mark(rows[1..], ids);
      MarkedCount(rows[1..], ids);
    }
  }

  lemma FetchKeepsInv(s: State, limit: nat)
    requires Inv(s)
    ensures Inv(AfterFetch(s, limit))
  {
    var t := AfterFetch(s, limit);
    SelectAscending(t.rows, s.offset, limit);
    forall r | r in t.batch ensures r.id > s.offset {
      SelectMembership(t.rows, s.offset, limit, r);
    }
    forall id | id in t.log && id <= t.offset ensures Accounted(t, id) {
      assert Accounted(s, id);
    }
    forall id, r | id in t.log && r in t.batch && s.offset < id <= r.id
      ensures id in Ids(t.batch) || Accounted(t, id)
    {
      FetchSkipsNothing(t, limit, id, r);
    }
  }

  lemma FetchSkipsNothing(t: State, limit: nat, id: nat, r: Row)
    requires TableInv(t) && t.batch == Select(t.rows, t.offset, limit)
    requires id in t.log && r in t.batch && t.offset < id <= r.id
    ensures id in Ids(t.batch) || Accounted(t, id)
  {
    if id in Ids(t.rows) {
      var row :| row in t.rows && row.id == id;
      if !row.delivered {
        SelectMembership(t.rows, t.offset, limit, r);
        BetweenMonotone(t.rows, t.offset, id, r.id);
        SelectMembership(t.rows, t.offset, limit, row);
        assert row in t.batch;
      }
    }
  }

  lemma ProcessKeepsInv(s: State)
    requires Inv(s)
    ensures Inv(Step(s, Process))
  {
    if s.batch != [] {
      ProcessAdvances(s);
      ProcessAccountsOffset(s);
      ProcessAccountsBatch(s);
    }
  }

  lemma ProcessAdvances(s: State)
    requires Inv(s) && s.batch != []
    ensures var t := Step(s, Process);
            && TableInv(t) && InIdOrder(t.batch)
            && (forall r :: r in t.batch <==> r in s.batch && r != s.batch[0])
            && (forall r :: r in t.batch ==> r.id > t.offset)
            && (forall id :: id in t.processed <==> id in s.processed || id == t.offset)
            && forall i, j :: 0 <= i < j < |t.processed| ==> t.processed[i] < t.processed[j]
  {
    assert s.batch[0] in s.batch;
    RestOfBatch(s.batch);
    Processed(s, s.batch[0].id);
  }

  lemma RestOfBatch(batch: seq<Row>)
    requires InIdOrder(batch) && batch != []
    ensures InIdOrder(batch[1..])
    ensures forall r :: r in batch[1..] <==> r in batch && r != batch[0]
    ensures forall r :: r in batch[1..] ==> r.id > batch[0].id
  {
    assert batch == [batch[0]] + batch[1..];
  }

  lemma Processed(s: State, id: nat)
    requires ClientInv(s) && id > s.offset
    ensures var processed := s.processed + [id];
            && (forall k :: k in processed <==> k in s.processed || k == id)
            && forall i, j :: 0 <= i < j < |processed| ==> processed[i] < processed[j]
  {
    assert forall i :: 0 <= i < |s.processed| ==> s.processed[i] in s.processed;
  }

  lemma ProcessAccountsOffset(s: State)
    requires Inv(s) && s.batch != []
    ensures var t := Step(s, Process); forall id :: id in t.log && id <= t.offset ==> Accounted(t, id)
  {
    var t, head := Step(s, Process), s.batch[0];
    ProcessAdvances(s);
    forall id | id in t.log && id <= t.offset ensures Accounted(t, id) {
      if id > s.offset {
        assert head in s.batch;
        if id in Ids(s.batch) {
          var r :| r in s.batch && r.id == id;
          assert r == head;
        } else {
          assert Accounted(s, id);
        }
      } else {
        assert Accounted(s, id);
      }
    }
  }

  lemma ProcessAccountsBatch(s: State)
    requires Inv(s) && s.batch != []
    ensures var t := Step(s, Process);
            forall id, r :: id in t.log && r in t.batch && t.offset < id <= r.id
                ==> id in Ids(t.batch) || Accounted(t, id)
  {
    var t := Step(s, Process);
    ProcessAdvances(s);
    forall id, r | id in t.log && r in t.batch && t.offset < id <= r.id
      ensures id in Ids(t.batch) || Accounted(t, id)
    {
      assert r in s.batch && s.batch[0] in s.batch;
      if id in Ids(s.batch) {
        var b :| b in s.batch && b.id == id;
        assert b in t.batch;
      } else {
        assert Accounted(s, id);
      }
    }
  }

  lemma MarkKeepsInv(s: State, ids: set<nat>)
    requires Inv(s)
    ensures Inv(Step(s, MarkDelivered(ids)))
  {
    var t := Step(s, MarkDelivered(ids));
    MarkedCount(s.rows, ids);
    forall id | id in t.log ensures id in Ids(t.rows) || id in t.trimmed {
      if id in Ids(s.rows) {
        var i :| 0 <= i < |s.rows| && s.rows[i].id == id;
        assert t.rows[i] in t.rows && t.rows[i].id == id;
      }
    }
    assert forall id :: Accounted(s, id) ==> Accounted(t, id);
  }

  lemma StepKeepsInv(s: State, a: Action)
    requires Inv(s)
    ensures Inv(Step(s, a))
  {
    match a
    case Enqueue(gap, payload) =>
      EnqueueKeepsTable(s, gap, payload);
      EnqueueKeepsClient(s, gap, payload);
    case Acknowledge => AcknowledgeKeepsInv(s);
    case Fetch(limit) => FetchKeepsInv(s, limit);
    case Process => ProcessKeepsInv(s);
    case Crash =>
    case MarkDelivered(ids) => MarkKeepsInv(s, ids);
  }

  lemma {:induction false} RunKeepsInv(actions: seq<Action>)
    ensures Inv(Run(Empty, actions))
  {
    if actions != [] {
      RunKeepsInv(actions[..|actions| - 1]);
      StepKeepsInv(Run(Empty, actions[..|actions| - 1]), actions[|actions| - 1]);
    }
  }

  /**
   * The queue refines its log. Whatever is enqueued, polled, processed, lost in a crash or
   * acknowledged by a webhook, in any order: updates are processed in strictly increasing id
   * order with the payload that was logged; every logged update up to the client's offset was
   * processed, trimmed or acknowledged; and the backlog stays within its bound.
   */
  lemma QueueRefinesLog(actions: seq<Action>)
    ensures var s := Run(Empty, actions);
            && (forall i, j :: 0 <= i < j < |s.processed| ==> s.processed[i] < s.processed[j])
            && (forall id :: id in s.processed ==> id in s.log)
            && (forall r :: r in s.batch ==> r.id > s.offset && r.id in s.log && s.log[r.id] == r.payload)
            && (forall id :: id in s.log && id <= s.offset ==> id in s.processed || id in s.trimmed || id in s.marked)
            && (forall id :: id in s.log && id !in s.trimmed ==> id in Ids(s.rows))
            && PendingCount(s.rows) <= UPDATE_BACKLOG
  {
    RunKeepsInv(actions);
    var s := Run(Empty, actions);
    assert forall id :: id in s.log && id <= s.offset ==> Accounted(s, id);
  }

  /** An update is trimmed only in favour of a full backlog of newer ones. */
  lemma TrimmedOnlyWhenFull(s: State, gap: nat, payload: string, row: Row)
    requires Inv(s) && row in s.rows && row !in AfterEnqueue(s, gap, payload).rows
    ensures !row.delivered
    ensures Newer(s.rows + [Row(s.nextId + gap, payload, false)], row.id) >= UPDATE_BACKLOG
  {
    TrimDropsOldest(s.rows + [Row(s.nextId + gap, payload, false)], UPDATE_BACKLOG, row);
  }

  /** The row waits before a limited number of others, so the next fetch reaches it. */
  predicate Waiting(s: State, limit: nat, row: Row) {
    !row.delivered && s.offset < row.id < s.nextId && Between(s.rows, s.offset, row.id) < limit
  }

  /** Either the row was processed, or it waits and the client has not gone past it. */
  predicate Owed(s: State, limit: nat, row: Row) {
    row.id in s.processed || (Waiting(s, limit, row) && (row in s.batch || s.batch == []))
  }

  /** What a client does between two fetches, and what arrives meanwhile. */
  predicate Ordinary(a: Action) {
    a.Enqueue? || a.Acknowledge? || a.Process? || a.Crash?
  }

  lemma {:induction false} BetweenAntitone(rows: seq<Row>, low: nat, low': nat, high: nat)
    requires low <= low'
    ensures Between(rows, low', high) <= Between(rows, low, high)
  {
    if rows != [] {
      BetweenAntitone(rows[1..], low, low', high);
    }
  }

  lemma EnqueueKeepsOwed(s: State, gap: nat, payload: string, limit: nat, row: Row)
    requires Owed(s, limit, row)
    ensures Owed(AfterEnqueue(s, gap, payload), limit, row)
  {
    if row.id !in s.processed {
      var newest := Row(s.nextId + gap, payload, false);
      BetweenAfterAppend(s.rows, newest, s.offset, row.id);
      BetweenAfterTrim(s.rows + [newest], UPDATE_BACKLOG, s.offset, row.id);
    }
  }

  lemma ProcessKeepsOwed(s: State, limit: nat, row: Row)
    requires Inv(s) && Owed(s, limit, row)
    ensures Owed(Step(s, Process), limit, row)
  {
    if s.batch != [] {
      var t := Step(s, Process);
      ProcessAdvances(s);
      if row.id !in t.processed {
        var i :| 0 <= i < |s.batch| && s.batch[i] == row;
        assert s.batch[0].id < row.id;
        BetweenAntitone(s.rows, s.offset, t.offset, row.id);
      }
    }
  }

  lemma OrdinaryKeepsOwed(s: State, a: Action, limit: nat, row: Row)
    requires Inv(s) && Owed(s, limit, row) && Ordinary(a)
    ensures Owed(Step(s, a), limit, row)
  {
    match a
    case Enqueue(gap, payload) => EnqueueKeepsOwed(s, gap, payload, limit, row);
    case Acknowledge => ConfirmedBetween(s.rows, s.offset, row.id);
    case Process => ProcessKeepsOwed(s, limit, row);
    case Crash =>
  }

  lemma {:induction false} RunKeepsOwed(s: State, actions: seq<Action>, limit: nat, row: Row)
    requires Inv(s) && Owed(s, limit, row) && forall a :: a in actions ==> Ordinary(a)
    ensures Inv(Run(s, actions)) && Owed(Run(s, actions), limit, row)
  {
    if actions != [] {
      var before, last := actions[..|actions| - 1], actions[|actions| - 1];
      assert last in actions;
      RunKeepsOwed(s, before, limit, row);
      StepKeepsInv(Run(s, before), last);
      OrdinaryKeepsOwed(Run(s, before), last, limit, row);
    }
  }

  /** What a poll or a delivery has confirmed is not handed over again, from whatever offset, zero included. */
  lemma ConfirmedNotFetched(s: State, ids: set<nat>, from: nat, limit: nat, row: Row)
    ensures row in Select(Step(s, Acknowledge).rows, from, limit) ==> row.id > s.offset || s.offset == 0
    ensures row in Select(Step(s, MarkDelivered(ids)).rows, from, limit) ==> row.id !in ids
  {
    SelectedWaits(Step(s, Acknowledge).rows, from, limit, row);
    SelectedWaits(Step(s, MarkDelivered(ids)).rows, from, limit, row);
  }

  lemma {:induction false} SelectedWaits(rows: seq<Row>, offset: nat, limit: nat, row: Row)
    ensures row in Select(rows, offset, limit) ==> row in rows && !row.delivered && row.id > offset
  {
    if rows != [] && limit > 0 {
      SelectedWaits(rows[1..], offset, limit - 1, row);
      SelectedWaits(rows[1..], offset, limit, row);
    }
  }

  /**
   * A crash loses nothing. Take any update a fetch handed over, and let the client process any
   * part of the batch, crash any number of times and start polling again, with updates arriving
   * throughout: the update was processed, or the next fetch hands it over again unless the
   * backlog rule dropped it.
   */
  lemma RepollReturnsUnconfirmed(s: State, limit: nat, actions: seq<Action>, row: Row)
    requires Inv(s) && row in AfterFetch(s, limit).batch
    requires forall a :: a in actions ==> Ordinary(a)
    ensures var t := Run(AfterFetch(s, limit), actions);
            row.id in t.processed || (row in t.rows ==> row in AfterFetch(t, limit).batch)
  {
    var fetched := AfterFetch(s, limit);
    FetchKeepsInv(s, limit);
    SelectMembership(s.rows, s.offset, limit, row);
    RunKeepsOwed(fetched, actions, limit, row);
    var t := Run(fetched, actions);
    if row.id !in t.processed && row in t.rows {
      SelectMembership(t.rows, t.offset, limit, row);
    }
  }

  lemma {:induction false} ConfirmedBetween(rows: seq<Row>, offset: nat, high: nat)
    ensures Between(Confirm(rows, offset), offset, high) == Between(rows, offset, high)
  {
    if rows != [] {
      assert Confirm(rows, offset)[1..] == Confirm(rows[1..], offset);
      ConfirmedBetween(rows[1..], offset, high);
    }
  }

  // --------------------------------------------------------------- the table

  lemma SelectNext(rows: seq<Row>, i: nat, offset: nat, limit: nat)
    requires i < |rows| && limit > 0
    ensures Select(rows[i..], offset, limit) ==
            if !rows[i].delivered && rows[i].id > offset then [rows[i]] + Select(rows[i + 1..], offset, limit - 1)
            else Select(rows[i + 1..], offset, limit)
  {
    assert rows[i..][1..] == rows[i + 1..];
  }

  lemma TakeNext(batch: seq<Row>, rows: seq<Row>, i: nat, offset: nat, limit: nat)
    requires i < |rows| && |batch| < limit
    ensures var more := if !rows[i].delivered && rows[i].id > offset then batch + [rows[i]] else batch;
            batch + Select(rows[i..], offset, limit - |batch|) ==
            more + Select(rows[i + 1..], offset, limit - |more|)
  {
    SelectNext(rows, i, offset, limit - |batch|);
    if !rows[i].delivered && rows[i].id > offset {
      var rest := Select(rows[i + 1..], offset, limit - |batch| - 1);
      assert batch + ([rows[i]] + rest) == (batch + [rows[i]]) + rest;
    }
  }

  lemma TrimNext(rows: seq<Row>, i: nat, keep: nat)
    requires i < |rows|
    ensures Trim(rows[i..], keep) ==
            (if rows[i].delivered || PendingCount(rows[i + 1..]) < keep then [rows[i]] else [])
            + Trim(rows[i + 1..], keep)
    ensures PendingCount(rows[i..]) == PendingCount(rows[i + 1..]) + if rows[i].delivered then 0 else 1
  {
    assert rows[i..][1..] == rows[i + 1..];
  }

  /** Another transaction on the same rows: an update arriving, or a webhook delivery. */
  datatype Traffic = Arrival(gap: nat, payload: string) | Delivery(ids: set<nat>)

  function AfterTraffic(rows: seq<Row>, nextId: nat, traffic: seq<Traffic>): (seq<Row>, nat) {
    if traffic == [] then (rows, nextId)
    else
      var (before, id) := AfterTraffic(rows, nextId, traffic[..|traffic| - 1]);
      match traffic[|traffic| - 1]
      case Arrival(gap, payload) => (Trim(before + [Row(id + gap, payload, false)], UPDATE_BACKLOG), id + gap + 1)
      case Delivery(ids) => (Mark(before, ids), id)
  }

  /** The bot_updates rows of one bot, in id order. */
  class Updates {
    var rows: seq<Row>
    var nextId: nat

    constructor ()
      ensures rows == Empty.rows && nextId == Empty.nextId
    {
      rows := [];
      nextId := 1;
    }

    /** Insert, then keep the first UPDATE_BACKLOG undelivered rows from the newest down. */
    method Enqueue(gap: nat, payload: string)
      modifies this
      ensures rows == Trim(old(rows) + [Row(old(nextId) + gap, payload, false)], UPDATE_BACKLOG)
      ensures nextId == old(nextId) + gap + 1
    {
      var id := nextId + gap;
      var all := rows + [Row(id, payload, false)];
      var kept: seq<Row> := [];
      var taken := 0;
      for i := |all| downto 0
        invariant kept == Trim(all[i..], UPDATE_BACKLOG)
        invariant taken == if PendingCount(all[i..]) < UPDATE_BACKLOG then PendingCount(all[i..]) else UPDATE_BACKLOG
      {
        TrimNext(all, i, UPDATE_BACKLOG);
        if all[i].delivered {
          kept := [all[i]] + kept;
        } else if taken < UPDATE_BACKLOG {
          kept := [all[i]] + kept;
          taken := taken + 1;
        }
      }
      assert all[0..] == all;
      rows, nextId := kept, id + 1;
    }

    method ConfirmUpTo(offset: nat)
      modifies this`rows
      ensures rows == Confirm(old(rows), offset)
      ensures offset > 0 ==> forall r :: r in rows && !r.delivered ==> r.id > offset
      ensures forall r :: r in old(rows) && (offset == 0 || r.id > offset) ==> r in rows
    {
      if offset > 0 {
        rows := seq(|rows|, i requires 0 <= i < |rows| reads this =>
          rows[i].(delivered := rows[i].delivered || rows[i].id <= offset));
      }
      assert rows == Confirm(old(rows), offset);
      forall r | r in old(rows) && (offset == 0 || r.id > offset) ensures r in rows {
        var i :| 0 <= i < |old(rows)| && old(rows)[i] == r;
        assert rows[i] == r;
      }
    }

    /** What other transactions do between the two statements of a poll. */
    method Others(traffic: seq<Traffic>)
      modifies this
      ensures (rows, nextId) == AfterTraffic(old(rows), old(nextId), traffic)
    {
      for i := 0 to |traffic|
        invariant (rows, nextId) == AfterTraffic(old(rows), old(nextId), traffic[..i])
      {
        match traffic[i] {
          case Arrival(gap, payload) => Enqueue(gap, payload);
          case Delivery(ids) => MarkDelivered(ids);
        }
        assert traffic[..i + 1][..i] == traffic[..i];
      }
      assert traffic[..|traffic|] == traffic;
    }

    method Poll(offset: nat, limit: nat, traffic: seq<Traffic>) returns (batch: seq<Row>)
      modifies this
      ensures (rows, nextId) == AfterTraffic(Confirm(old(rows), offset), old(nextId), traffic)
      ensures batch == Select(rows, offset, limit)
    {
      ConfirmUpTo(offset);
      Others(traffic);
      batch := SelectRows(rows, offset, limit);
    }

    static method SelectRows(rows: seq<Row>, offset: nat, limit: nat) returns (batch: seq<Row>)
      ensures batch == Select(rows, offset, limit)
    {
      batch := [];
      var i := 0;
      while i < |rows| && |batch| < limit
        invariant i <= |rows| && |batch| <= limit
        invariant Select(rows, offset, limit) == batch + Select(rows[i..], offset, limit - |batch|)
      {
        TakeNext(batch, rows, i, offset, limit);
        if !rows[i].delivered && rows[i].id > offset {
          batch := batch + [rows[i]];
        }
        i := i + 1;
      }
      assert Select(rows[i..], offset, limit - |batch|) == [];
    }

    /** What a webhook delivery should send: a poll that confirms nothing. */
    method PendingUpdates(limit: nat) returns (batch: seq<Row>)
      ensures rows == old(rows) && batch == Select(rows, 0, limit)
    {
      batch := SelectRows(rows, 0, limit);
    }

    method MarkDelivered(ids: set<nat>)
      modifies this`rows
      ensures rows == Mark(old(rows), ids)
      ensures forall r :: r in rows && r.id in ids ==> r.delivered
      ensures forall r :: r in old(rows) && r.id !in ids ==> r in rows
    {
      ghost var before := rows;
      rows := seq(|rows|, i requires 0 <= i < |rows| reads this =>
        rows[i].(delivered := rows[i].delivered || rows[i].id in ids));
      forall r | r in before && r.id !in ids ensures r in rows {
        var i :| 0 <= i < |before| && before[i] == r;
        assert rows[i] == r;
      }
    }
  }
}
