/** The sealed cohort: records in the text order of their ids
    (packages/cli/src/finiteLearningStudy.ts:98-103). */
module CohortOrder {

  datatype Record = Record(id: string, receipt: string, endedAt: int)

  /** Text order, character by character. */
  predicate Before(a: string, b: string) {
    b != [] && (a == [] || a[0] < b[0] || (a[0] == b[0] && Before(a[1..], b[1..])))
  }

  lemma {:induction false} BeforeIsTotal(a: string, b: string)
    ensures a == b || Before(a, b) || Before(b, a)
    ensures !(Before(a, b) && Before(b, a)) && !Before(a, a)
  {
    if a != [] && b != [] && a[0] == b[0] {
      BeforeIsTotal(a[1..], b[1..]);
      assert a[1..] == b[1..] ==> a == [a[0]] + a[1..] == [b[0]] + b[1..] == b;
    }
    if a != [] {
      BeforeIsTotal(a[1..], a[1..]);
    }
  }

  lemma {:induction false} BeforeIsTransitive(a: string, b: string, c: string)
    requires Before(a, b) && Before(b, c)
    ensures Before(a, c)
  {
    if a != [] && a[0] == b[0] == c[0] {
      BeforeIsTransitive(a[1..], b[1..], c[1..]);
    }
  }

  function Records(rows: seq<Record>): set<Record> {
    set r | r in rows
  }

  predicate HasId(rows: seq<Record>, id: string) {
    exists r :: r in rows && r.id == id
  }

  ghost predicate DistinctIds(rows: seq<Record>) {
    forall i, j :: 0 <= i < j < |rows| ==> rows[i].id != rows[j].id
  }

  ghost predicate InOrder(rows: seq<Record>) {
    forall i, j :: 0 <= i < j < |rows| ==> Before(rows[i].id, rows[j].id)
  }

  function Insert(r: Record, rows: seq<Record>): (s: seq<Record>)
    ensures |s| == |rows| + 1
    ensures forall x :: x in s <==> x == r || x in rows
  {
    if rows == [] || Before(r.id, rows[0].id) then [r] + rows else [rows[0]] + Insert(r, rows[1..])
  }

  /** The records ordered by id. */
  function Cohort(rows: seq<Record>): (s: seq<Record>)
    ensures |s| == |rows|
    ensures forall x :: x in s <==> x in rows
  {
    if rows == [] then [] else
      var rest := rows[..|rows| - 1];
      assert rows == rest + [rows[|rows| - 1]];
      Insert(rows[|rows| - 1], Cohort(rest))
  }

  lemma {:induction false} InsertKeepsOrder(r: Record, rows: seq<Record>)
    requires InOrder(rows) && !HasId(rows, r.id)
    ensures InOrder(Insert(r, rows))
  {
    if rows != [] {
      BeforeIsTotal(r.id, rows[0].id);
      if Before(r.id, rows[0].id) {
        forall j | 0 <= j < |rows| ensures Before(r.id, rows[j].id) {
          if j > 0 {
            BeforeIsTransitive(r.id, rows[0].id, rows[j].id);
          }
        }
      } else {
        assert forall x :: x in rows[1..] ==> x in rows;
        InsertKeepsOrder(r, rows[1..]);
        var tail := Insert(r, rows[1..]);
        forall j | 0 <= j < |tail| ensures Before(rows[0].id, tail[j].id) {
          assert tail[j] in tail;
        }
      }
    }
  }

  lemma {:induction false} CohortIsInOrder(rows: seq<Record>)
    requires DistinctIds(rows)
    ensures InOrder(Cohort(rows))
  {
    if rows != [] {
      var rest := rows[..|rows| - 1];
      CohortIsInOrder(rest);
      InsertKeepsOrder(rows[|rows| - 1], Cohort(rest));
    }
  }

  /** Records in order are determined by which records they are. */
  lemma {:induction false} OrderIsUnique(a: seq<Record>, b: seq<Record>)
    requires InOrder(a) && InOrder(b) && Records(a) == Records(b)
    ensures a == b
  {
    assert a != [] ==> a[0] in Records(a);
    assert b != [] ==> b[0] in Records(b);
    if a != [] && b != [] {
      FirstIsLeast(a, b[0]);
      FirstIsLeast(b, a[0]);
      BeforeIsTotal(a[0].id, b[0].id);
      RestIsSame(a, b);
      OrderIsUnique(a[1..], b[1..]);
      assert a == [a[0]] + a[1..] && b == [b[0]] + b[1..];
    }
  }

  lemma FirstIsLeast(a: seq<Record>, r: Record)
    requires a != [] && InOrder(a) && r in Records(a)
    ensures r == a[0] || Before(a[0].id, r.id)
  {
    var i :| 0 <= i < |a| && a[i] == r;
  }

  lemma RestIsSame(a: seq<Record>, b: seq<Record>)
    requires a != [] && b != [] && InOrder(a) && InOrder(b) && Records(a) == Records(b) && a[0] == b[0]
    ensures Records(a[1..]) == Records(b[1..])
  {
    BeforeIsTotal(a[0].id, a[0].id);
    RestIsWithoutFirst(a);
    RestIsWithoutFirst(b);
  }

  lemma RestIsWithoutFirst(a: seq<Record>)
    requires a != [] && InOrder(a)
    ensures Records(a[1..]) == Records(a) - {a[0]}
  {
    BeforeIsTotal(a[0].id, a[0].id);
    forall r ensures r in Records(a[1..]) <==> r in Records(a) - {a[0]} {
      if r in a[1..] {
        var i :| 0 <= i < |a[1..]| && a[1..][i] == r;
        assert a[i + 1] == r && Before(a[0].id, a[i + 1].id);
      }
      if r in a && r != a[0] {
        var i :| 0 <= i < |a| && a[i] == r;
        assert a[1..][i - 1] == r;
      }
    }
  }

  /** Whatever order the same records arrived in, the cohort is the same. */
  lemma CohortIgnoresArrival(a: seq<Record>, b: seq<Record>)
    requires DistinctIds(a) && DistinctIds(b) && Records(a) == Records(b)
    ensures Cohort(a) == Cohort(b)
  {
    CohortIsInOrder(a);
    CohortIsInOrder(b);
    assert Records(Cohort(a)) == Records(a) && Records(Cohort(b)) == Records(b);
    OrderIsUnique(Cohort(a), Cohort(b));
  }
}
