/** The fee page (src/pages/FeesPage.tsx): every fee of every student
    flattened into one list of rows, filtered by a search term and a status,
    and summed into the three headline amounts. Amounts are integers here;
    the fee `status` is whatever is stored, and a partial fee's
    `paidAmount` is never read. */
module FeesPage {
  import opened Common
  import opened SchoolTypes
  import opened Text

  /** A flattened entry: the fee record plus its student's name and grade. */
  datatype FeeRow = FeeRow(fee: FeeRecord, studentName: string, studentGrade: string)

  /** The rows of one student, one per fee in order. */
  function StudentRows(s: Student): (r: seq<FeeRow>)
    ensures |r| == |s.fees|
    ensures forall j :: 0 <= j < |s.fees| ==> r[j] == FeeRow(s.fees[j], s.name, s.grade)
  {
    seq(|s.fees|, j requires 0 <= j < |s.fees| => FeeRow(s.fees[j], s.name, s.grade))
  }

  /** The flattened list: the students' rows one student after another. */
  function FlattenFees(students: seq<Student>): seq<FeeRow>
    decreases |students|
  {
    if students == [] then []
    else FlattenFees(students[..|students| - 1]) + StudentRows(students[|students| - 1])
  }

  /** The number of fees held by the students. */
  function FeeCount(students: seq<Student>): nat
    decreases |students|
  {
    if students == [] then 0
    else FeeCount(students[..|students| - 1]) + |students[|students| - 1].fees|
  }

  /** `getAllFees`: the nested `forEach` pushing one row per fee. */
  method GetAllFees(students: seq<Student>) returns (allFees: seq<FeeRow>)
    ensures allFees == FlattenFees(students)
  {
    allFees := [];
    var i := 0;
    while i < |students|
      invariant 0 <= i <= |students|
      invariant allFees == FlattenFees(students[..i])
    {
      var student := students[i];
      var j := 0;
      while j < |student.fees|
        invariant 0 <= j <= |student.fees|
        invariant allFees == FlattenFees(students[..i]) + StudentRows(student)[..j]
      {
        allFees := allFees + [FeeRow(student.fees[j], student.name, student.grade)];
        j := j + 1;
      }
      assert students[..i + 1][..i] == students[..i];
      i := i + 1;
    }
    assert students[..|students|] == students;
  }

  /** There is one row per fee. */
  lemma {:induction false} FlattenLength(students: seq<Student>)
    ensures |FlattenFees(students)| == FeeCount(students)
    decreases |students|
  {
    if students != [] {
      FlattenLength(students[..|students| - 1]);
    }
  }

  /** The rows come in student order and then fee order: the fee `j` of
      student `i` sits right after the fees of the students before `i`, and
      carries that student's name and grade. */
  lemma {:induction false} FlattenIndex(students: seq<Student>, i: nat, j: nat)
    requires i < |students| && j < |students[i].fees|
    ensures FeeCount(students[..i]) + j < |FlattenFees(students)|
    ensures FlattenFees(students)[FeeCount(students[..i]) + j] ==
      FeeRow(students[i].fees[j], students[i].name, students[i].grade)
    decreases |students|
  {
    var n := |students| - 1;
    var front := students[..n];
    FlattenLength(front);
    FlattenLength(students);
    if i == n {
      assert students[..i] == front;
    } else {
      assert students[..i] == front[..i];
      FlattenIndex(front, i, j);
    }
  }

  /** The status choice: 'all', or one stored status. */
  datatype StatusFilter = AllStatuses | OnlyStatus(status: FeeStatus)

  /** The row matches the search term in the student name or the fee type
      (both lower-cased), and the chosen status. */
  predicate MatchesFee(row: FeeRow, term: string, filter: StatusFilter) {
    && (Includes(Lower(row.studentName), Lower(term)) || Includes(Lower(FeeTypeName(row.fee.feeType)), Lower(term)))
    && (filter.AllStatuses? || row.fee.status == filter.status)
  }

  /** The row test of `filteredFees`. */
  function FeeMatcher(term: string, filter: StatusFilter): FeeRow -> bool {
    (row: FeeRow) => MatchesFee(row, term, filter)
  }

  /** `filteredFees`: the matching rows, in their order. */
  function FilteredFees(rows: seq<FeeRow>, term: string, filter: StatusFilter): (r: seq<FeeRow>)
    ensures IsSubsequence(r, rows)
    ensures forall i :: 0 <= i < |r| ==> MatchesFee(r[i], term, filter)
    ensures forall i :: 0 <= i < |rows| && MatchesFee(rows[i], term, filter) ==> rows[i] in r
    ensures forall row :: multiset(r)[row] == if MatchesFee(row, term, filter) then multiset(rows)[row] else 0
  {
    Filter(rows, FeeMatcher(term, filter))
  }

  /** The empty search term matches every row under 'all'. */
  lemma EmptySearchMatches(row: FeeRow)
    ensures MatchesFee(row, "", AllStatuses)
  {
    assert Lower("") == "";
    EmptyTermMatches(Lower(row.studentName));
  }

  /** With 'all' and an empty search every row is kept, in order. */
  lemma FilterAllKeepsEverything(rows: seq<FeeRow>)
    ensures FilteredFees(rows, "", AllStatuses) == rows
  {
    forall i | 0 <= i < |rows| ensures FeeMatcher("", AllStatuses)(rows[i]) {
      EmptySearchMatches(rows[i]);
    }
    FilterKeepsAll(rows, FeeMatcher("", AllStatuses));
  }

  /** A specific status keeps only rows with that status. */
  lemma StatusFilterKeepsOnlyThatStatus(rows: seq<FeeRow>, term: string, s: FeeStatus)
    ensures forall i :: 0 <= i < |FilteredFees(rows, term, OnlyStatus(s))| ==>
      FilteredFees(rows, term, OnlyStatus(s))[i].fee.status == s
  {
  }

  /** `totalAmount`: the sum of the amounts. */
  function TotalAmount(rows: seq<FeeRow>): int
    decreases |rows|
  {
    if rows == [] then 0 else TotalAmount(rows[..|rows| - 1]) + rows[|rows| - 1].fee.amount
  }

  /** `paidAmount`: the sum of the amounts of the rows whose status is
      'paid'. */
  function PaidAmount(rows: seq<FeeRow>): int
    decreases |rows|
  {
    if rows == [] then 0
    else PaidAmount(rows[..|rows| - 1]) + (if rows[|rows| - 1].fee.status == Paid then rows[|rows| - 1].fee.amount else 0)
  }

  /** The sum over the rows whose status is not 'paid'. */
  function UnpaidAmount(rows: seq<FeeRow>): int
    decreases |rows|
  {
    if rows == [] then 0
    else UnpaidAmount(rows[..|rows| - 1]) + (if rows[|rows| - 1].fee.status != Paid then rows[|rows| - 1].fee.amount else 0)
  }

  /** The Outstanding figure, `totalAmount - paidAmount`. */
  function Outstanding(rows: seq<FeeRow>): (r: int)
    ensures r == UnpaidAmount(rows)
  {
    OutstandingIsUnpaid(rows);
    TotalAmount(rows) - PaidAmount(rows)
  }

  /** Total = collected + the rest: outstanding is the sum over every row
      not marked 'paid', partial ones included at their full amount. */
  lemma {:induction false} OutstandingIsUnpaid(rows: seq<FeeRow>)
    ensures TotalAmount(rows) == PaidAmount(rows) + UnpaidAmount(rows)
    decreases |rows|
  {
    if rows != [] {
      OutstandingIsUnpaid(rows[..|rows| - 1]);
    }
  }

  /** With no negative amounts, collected never exceeds the total and
      outstanding is never negative. */
  lemma {:induction false} CollectedWithinTotal(rows: seq<FeeRow>)
    requires forall i :: 0 <= i < |rows| ==> rows[i].fee.amount >= 0
    ensures 0 <= PaidAmount(rows) <= TotalAmount(rows)
    ensures Outstanding(rows) >= 0
    decreases |rows|
  {
    if rows != [] {
      CollectedWithinTotal(rows[..|rows| - 1]);
    }
  }
}
