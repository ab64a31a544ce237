/** The rows of the active and the finished list: pure operations on them and what they keep. */
module TaskRows {
  import opened TaskManager

  datatype Row = Row(taskId: TaskId, fileName: string, progress: int, status: Status, checked: bool)

  predicate Distinct(rows: seq<Row>) {
    forall i, j :: 0 <= i < j < |rows| ==> rows[i].taskId != rows[j].taskId
  }

  predicate Has(rows: seq<Row>, id: TaskId) {
    exists i :: 0 <= i < |rows| && rows[i].taskId == id
  }

  /** The rows of all other ids, in their order. */
  function Without(rows: seq<Row>, ids: set<TaskId>): seq<Row> {
    if rows == [] then []
    else
      var last := rows[|rows| - 1];
      Without(rows[..|rows| - 1], ids) + if last.taskId in ids then [] else [last]
  }

  function Unchecked(rows: seq<Row>): seq<Row> {
    if rows == [] then []
    else
      var last := rows[|rows| - 1];
      Unchecked(rows[..|rows| - 1]) + if last.checked then [] else [last]
  }

  lemma HasMore(rows: seq<Row>, row: Row, id: TaskId)
    ensures Has(rows + [row], id) <==> Has(rows, id) || row.taskId == id
  {
    var more := rows + [row];
    assert more[|rows|] == row && forall i :: 0 <= i < |rows| ==> more[i] == rows[i];
  }

  lemma {:induction false} WithoutHas(rows: seq<Row>, ids: set<TaskId>, id: TaskId)
    ensures Has(Without(rows, ids), id) <==> Has(rows, id) && id !in ids
  {
    if rows != [] {
      var front, last := rows[..|rows| - 1], rows[|rows| - 1];
      WithoutHas(front, ids, id);
      assert rows == front + [last];
      HasMore(front, last, id);
      HasMore(Without(front, ids), last, id);
      assert Without(front, ids) + [] == Without(front, ids);
    }
  }

  lemma {:induction false} WithoutIsDistinct(rows: seq<Row>, ids: set<TaskId>)
    requires Distinct(rows)
    ensures Distinct(Without(rows, ids))
  {
    if rows != [] {
      var front, last := rows[..|rows| - 1], rows[|rows| - 1];
      WithoutIsDistinct(front, ids);
      WithoutHas(front, ids, last.taskId);
      assert !Has(front, last.taskId);
    }
  }

  /** In a list without double ids, taking away the row that was found takes away the id. */
  lemma {:induction false} RemovedRow(rows: seq<Row>, k: nat)
    requires k < |rows| && Distinct(rows)
    ensures rows[..k] + rows[k + 1..] == Without(rows, {rows[k].taskId})
  {
    var front, last := rows[..|rows| - 1], rows[|rows| - 1];
    if k == |rows| - 1 {
      NothingToRemove(front, last.taskId);
      assert rows[..k] + rows[k + 1..] == front;
    } else {
      RemovedRow(front, k);
      assert front[k] == rows[k];
      assert rows[..k] + rows[k + 1..] == front[..k] + front[k + 1..] + [last];
    }
  }

  lemma {:induction false} NothingToRemove(rows: seq<Row>, id: TaskId)
    requires !Has(rows, id)
    ensures Without(rows, {id}) == rows
  {
    if rows != [] {
      var front, last := rows[..|rows| - 1], rows[|rows| - 1];
      assert rows == front + [last];
      HasMore(front, last, id);
      NothingToRemove(front, id);
    }
  }

  lemma {:induction false} RemovedTwice(rows: seq<Row>, ids: set<TaskId>, id: TaskId)
    ensures Without(Without(rows, ids), {id}) == Without(rows, ids + {id})
  {
    if rows != [] {
      var front, last := rows[..|rows| - 1], rows[|rows| - 1];
      RemovedTwice(front, ids, id);
      if last.taskId !in ids {
        var kept := Without(front, ids) + [last];
        assert kept[..|kept| - 1] == Without(front, ids);
      } else {
        assert Without(front, ids) + [] == Without(front, ids);
        assert Without(front, ids + {id}) + [] == Without(front, ids + {id});
      }
    }
  }

  lemma {:induction false} WithoutNone(rows: seq<Row>)
    ensures Without(rows, {}) == rows
  {
    if rows != [] {
      WithoutNone(rows[..|rows| - 1]);
      assert rows == rows[..|rows| - 1] + [rows[|rows| - 1]];
    }
  }

  /** The ids of the rows that are checked. */
  function CheckedIds(rows: seq<Row>): set<TaskId> {
    set row | row in rows && row.checked :: row.taskId
  }

  /** Taking away every checked id leaves exactly the rows that are not checked. */
  lemma {:induction false} CheckedTaken(rows: seq<Row>, ids: set<TaskId>)
    requires forall i :: 0 <= i < |rows| ==> (rows[i].checked <==> rows[i].taskId in ids)
    ensures Without(rows, ids) == Unchecked(rows)
  {
    if rows != [] {
      CheckedTaken(rows[..|rows| - 1], ids);
    }
  }

  lemma CheckedMeansInIds(rows: seq<Row>)
    requires Distinct(rows)
    ensures forall i :: 0 <= i < |rows| ==> (rows[i].checked <==> rows[i].taskId in CheckedIds(rows))
  {
    forall i | 0 <= i < |rows| ensures rows[i].checked <==> rows[i].taskId in CheckedIds(rows) {
      assert rows[i] in rows;
      forall row | row in rows && row.taskId == rows[i].taskId ensures row == rows[i] {
        var j :| 0 <= j < |rows| && rows[j] == row;
      }
    }
  }

  /** No id has two rows, in one list or over both. */
  predicate OneRowEach(active: seq<Row>, finished: seq<Row>) {
    && Distinct(active) && Distinct(finished)
    && forall i, j :: 0 <= i < |active| && 0 <= j < |finished| ==> active[i].taskId != finished[j].taskId
  }

  lemma AppendedRow(rows: seq<Row>, row: Row)
    requires Distinct(rows) && !Has(rows, row.taskId)
    ensures Distinct(rows + [row])
  {
  }

  lemma MovedRow(active: seq<Row>, finished: seq<Row>, row: Row)
    requires OneRowEach(active, finished) && Has(active, row.taskId)
    ensures OneRowEach(Without(active, {row.taskId}), finished + [row])
    ensures !Has(Without(active, {row.taskId}), row.taskId)
  {
    var rest, more := Without(active, {row.taskId}), finished + [row];
    WithoutIsDistinct(active, {row.taskId});
    WithoutHas(active, {row.taskId}, row.taskId);
    var k :| 0 <= k < |active| && active[k].taskId == row.taskId;
    AppendedRow(finished, row);
    forall i, j | 0 <= i < |rest| && 0 <= j < |more| ensures rest[i].taskId != more[j].taskId {
      WithoutHas(active, {row.taskId}, rest[i].taskId);
      var m :| 0 <= m < |active| && active[m].taskId == rest[i].taskId;
    }
  }

  lemma FewerRows(active: seq<Row>, finished: seq<Row>, ids: set<TaskId>)
    requires OneRowEach(active, finished)
    ensures OneRowEach(Without(active, ids), finished) && OneRowEach(active, Without(finished, ids))
  {
    WithoutIsDistinct(active, ids);
    WithoutIsDistinct(finished, ids);
    FewerClash(active, finished, ids);
    FewerClash(finished, active, ids);
  }

  lemma FewerClash(a: seq<Row>, b: seq<Row>, ids: set<TaskId>)
    requires forall i, j :: 0 <= i < |a| && 0 <= j < |b| ==> a[i].taskId != b[j].taskId
    ensures forall i, j :: 0 <= i < |Without(a, ids)| && 0 <= j < |b| ==> Without(a, ids)[i].taskId != b[j].taskId
  {
    forall i, j | 0 <= i < |Without(a, ids)| && 0 <= j < |b| ensures Without(a, ids)[i].taskId != b[j].taskId {
      WithoutHas(a, ids, Without(a, ids)[i].taskId);
      var m :| 0 <= m < |a| && a[m].taskId == Without(a, ids)[i].taskId;
    }
  }
}
