/**
 * The operator view's cross-tabulation: for every category and every age
 * bracket, how many stored records fall in that cell. Built by starting
 * from an all-zero matrix and adding one per record whose age is a known
 * bracket.
 */
module AgeMatrix {
  import opened Votes
  import opened Records

  /** Category, then age bracket, to count. */
  type Matrix = map<VoteType, map<string, nat>>

  /** Every category has a row, and every row has exactly the six brackets. */
  ghost predicate Populated(m: Matrix)
  {
    forall t: VoteType :: t in m && (forall a :: a in m[t] <==> a in AgeGroups)
  }

  /** A row with a zero count for each of the six brackets. */
  const ZeroRow: map<string, nat> := map a | a in AgeGroups :: 0

  /** The `base` matrix before any record is counted. */
  function ZeroMatrix(): Matrix
  {
    map t | t in AllVoteTypes :: ZeroRow
  }

  /** All 24 cells are present and 0. */
  lemma ZeroMatrixCells()
    ensures Populated(ZeroMatrix())
    ensures forall t: VoteType, a :: a in AgeGroups ==> ZeroMatrix()[t][a] == 0
  {
    AllVoteTypesComplete();
  }

  /**
   * One step of the loop: the record's cell, if the matrix has one, goes up
   * by one; a record whose age is not a column changes nothing.
   */
  function Tally(m: Matrix, f: Feedback): Matrix
  {
    var col := MapRatingToVoteType(f.rating);
    if col in m && f.age in m[col] then
      m[col := m[col][f.age := m[col][f.age] + 1]]
    else
      m
  }

  /**
   * Tallying a record keeps every row and column, adds one to the cell of
   * its category and age, and leaves every other cell as it was.
   */
  lemma TallyCells(m: Matrix, f: Feedback)
    ensures Tally(m, f).Keys == m.Keys
    ensures forall t :: t in m ==> Tally(m, f)[t].Keys == m[t].Keys
    ensures forall t, a :: t in m && a in m[t] ==>
      Tally(m, f)[t][a] == m[t][a] + (if t == MapRatingToVoteType(f.rating) && a == f.age then 1 else 0)
    ensures Populated(m) ==> Populated(Tally(m, f))
  {
  }

  /** A record whose age is not a bracket leaves a populated matrix unchanged. */
  lemma TallySkipsUnknownAge(m: Matrix, f: Feedback)
    requires Populated(m)
    requires !KnownAge(f.age)
    ensures Tally(m, f) == m
  {
  }

  /** Tally every record of `fs`, first to last. */
  function TallyAll(m: Matrix, fs: seq<Feedback>): Matrix
  {
    if fs == [] then m else TallyAll(Tally(m, fs[0]), fs[1..])
  }

  /** The matrix the operator view shows for the stored records. */
  function MatrixOf(stored: seq<Feedback>): Matrix
  {
    TallyAll(ZeroMatrix(), stored)
  }

  /** Reference count: the records of category `t` whose age is exactly `a`. */
  function CellCount(fs: seq<Feedback>, t: VoteType, a: string): nat
  {
    if fs == [] then 0
    else
      (if MapRatingToVoteType(fs[0].rating) == t && fs[0].age == a then 1 else 0)
      + CellCount(fs[1..], t, a)
  }

  /** The records whose age is one of the six brackets. */
  function KnownCount(fs: seq<Feedback>): nat
  {
    if fs == [] then 0
    else (if KnownAge(fs[0].age) then 1 else 0) + KnownCount(fs[1..])
  }

  /** Sum of a row over the given brackets (a missing bracket counts 0). */
  function RowSum(row: map<string, nat>, ages: seq<string>): nat
  {
    if ages == [] then 0
    else (if ages[0] in row then row[ages[0]] else 0) + RowSum(row, ages[1..])
  }

  /** Sum of the given rows over the six brackets (a missing row counts 0). */
  function RowsSum(m: Matrix, ts: seq<VoteType>): nat
  {
    if ts == [] then 0
    else (if ts[0] in m then RowSum(m[ts[0]], AgeGroups) else 0) + RowsSum(m, ts[1..])
  }

  /** Sum of all 24 cells. */
  function Total(m: Matrix): nat
  {
    RowsSum(m, AllVoteTypes)
  }

  /** Counting a sequence of records adds each record's cell count to the starting matrix. */
  lemma {:induction false} TallyAllCells(m: Matrix, fs: seq<Feedback>)
    requires Populated(m)
    ensures Populated(TallyAll(m, fs))
    ensures forall t: VoteType, a :: a in AgeGroups ==>
      TallyAll(m, fs)[t][a] == m[t][a] + CellCount(fs, t, a)
  {
    if fs != [] {
      TallyCells(m, fs[0]);
      TallyAllCells(Tally(m, fs[0]), fs[1..]);
    }
  }

  /** Every cell of the view's matrix is the reference count for that cell. */
  lemma MatrixOfCells(stored: seq<Feedback>)
    ensures Populated(MatrixOf(stored))
    ensures forall t: VoteType, a :: a in AgeGroups ==> MatrixOf(stored)[t][a] == CellCount(stored, t, a)
  {
    ZeroMatrixCells();
    TallyAllCells(ZeroMatrix(), stored);
  }

  lemma {:induction false} RowSumZero(row: map<string, nat>, ages: seq<string>)
    requires forall a :: a in ages ==> a in row && row[a] == 0
    ensures RowSum(row, ages) == 0
  {
    if ages != [] {
      RowSumZero(row, ages[1..]);
    }
  }

  lemma {:induction false} RowSumBump(row: map<string, nat>, ages: seq<string>, a: string)
    requires a in row
    requires forall i, j :: 0 <= i < j < |ages| ==> ages[i] != ages[j]
    ensures RowSum(row[a := row[a] + 1], ages) == RowSum(row, ages) + (if a in ages then 1 else 0)
  {
    if ages != [] {
      RowSumBump(row, ages[1..], a);
      assert a in ages <==> a == ages[0] || a in ages[1..];
      assert a == ages[0] ==> a !in ages[1..];
    }
  }

  lemma {:induction false} RowsSumBump(m: Matrix, ts: seq<VoteType>, col: VoteType, a: string)
    requires col in m && a in m[col]
    requires forall i, j :: 0 <= i < j < |ts| ==> ts[i] != ts[j]
    ensures RowsSum(m[col := m[col][a := m[col][a] + 1]], ts)
         == RowsSum(m, ts) + (if col in ts && a in AgeGroups then 1 else 0)
  {
    if ts != [] {
      RowsSumBump(m, ts[1..], col, a);
      assert col in ts <==> col == ts[0] || col in ts[1..];
      assert col == ts[0] ==> col !in ts[1..];
      if ts[0] == col {
        AgeGroupsDistinct();
        RowSumBump(m[col], AgeGroups, a);
      }
    }
  }

  lemma ZeroMatrixTotal()
    ensures Total(ZeroMatrix()) == 0
  {
    var z := ZeroMatrix();
    ZeroMatrixCells();
    RowSumZero(z[Excellent], AgeGroups);
    RowSumZero(z[Bien], AgeGroups);
    RowSumZero(z[Moyen], AgeGroups);
    RowSumZero(z[Insuffisant], AgeGroups);
  }

  /** One record adds one to the total exactly when its age is a known bracket. */
  lemma TallyTotal(m: Matrix, f: Feedback)
    requires Populated(m)
    ensures Total(Tally(m, f)) == Total(m) + (if KnownAge(f.age) then 1 else 0)
  {
    var col := MapRatingToVoteType(f.rating);
    assert col in m && (f.age in m[col] <==> KnownAge(f.age));
    TallyTotalAt(m, f, col);
  }

  lemma TallyTotalAt(m: Matrix, f: Feedback, col: VoteType)
    requires col == MapRatingToVoteType(f.rating)
    requires col in m && (f.age in m[col] <==> KnownAge(f.age))
    ensures Total(Tally(m, f)) == Total(m) + (if KnownAge(f.age) then 1 else 0)
  {
    AllVoteTypesComplete();
    if f.age in m[col] {
      RowsSumBump(m, AllVoteTypes, col, f.age);
    }
  }

  lemma {:induction false} TallyAllTotal(m: Matrix, fs: seq<Feedback>)
    requires Populated(m)
    ensures Total(TallyAll(m, fs)) == Total(m) + KnownCount(fs)
  {
    if fs != [] {
      TallyTotal(m, fs[0]);
      TallyCells(m, fs[0]);
      TallyAllTotal(Tally(m, fs[0]), fs[1..]);
    }
  }

  /** The 24 cells add up to the number of records with a known bracket. */
  lemma MatrixOfTotal(stored: seq<Feedback>)
    ensures Total(MatrixOf(stored)) == KnownCount(stored)
  {
    ZeroMatrixCells();
    ZeroMatrixTotal();
    TallyAllTotal(ZeroMatrix(), stored);
  }

  /**
   * The matrix-building effect: start from the zero matrix and, for each
   * stored record, add one to its cell when the row has its age as a key.
   */
  method ComputeMatrix(stored: seq<Feedback>) returns (m: Matrix)
    ensures m == MatrixOf(stored)
    ensures Populated(m)
    ensures forall t: VoteType, a :: a in AgeGroups ==>
      t in m && a in m[t] && m[t][a] == CellCount(stored, t, a)
    ensures Total(m) == KnownCount(stored)
  {
    m := ZeroMatrix();
    var i := 0;
    while i < |stored|
      invariant 0 <= i <= |stored|
      invariant TallyAll(m, stored[i..]) == MatrixOf(stored)
    {
      var f := stored[i];
      var col := MapRatingToVoteType(f.rating);
      ghost var next := Tally(m, f);
      assert stored[i..][1..] == stored[i + 1..];
      assert TallyAll(next, stored[i + 1..]) == MatrixOf(stored);
      if col in m && f.age in m[col] {
        m := m[col := m[col][f.age := m[col][f.age] + 1]];
      }
      assert m == next;
      i := i + 1;
    }
    assert stored[i..] == [];
    MatrixOfCells(stored);
    MatrixOfTotal(stored);
  }

  /** Two votes, a 5 from 20-24 then a 2 from 60+, fill exactly two cells. */
  lemma TwoVoteScenario(t1: Timestamp, t2: Timestamp)
    ensures MatrixOf([Feedback(2, "60+", t2), Feedback(5, "20-24", t1)])
         == ZeroMatrix()[Excellent := ZeroRow["20-24" := 1]][Insuffisant := ZeroRow["60+" := 1]]
  {
    var fs := [Feedback(2, "60+", t2), Feedback(5, "20-24", t1)];
    var z := ZeroMatrix();
    var m1 := Tally(z, fs[0]);
    assert m1 == z[Insuffisant := ZeroRow["60+" := 1]];
    var m2 := Tally(m1, fs[1]);
    assert m2 == z[Excellent := ZeroRow["20-24" := 1]][Insuffisant := ZeroRow["60+" := 1]];
    assert fs[1..][1..] == [];
    assert MatrixOf(fs) == TallyAll(m1, fs[1..]) == TallyAll(m2, []);
  }
}
