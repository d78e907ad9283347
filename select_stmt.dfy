/** `gen_select_stmt` (src/generators/common/select_stmt_common.rs). */
module SelectStmtCommon {
  import opened Wrappers
  import opened Rng
  import opened Text
  import opened Schema
  import opened Sampling

  function SelectText(table: string, cols: seq<string>): string
  {
    "SELECT " + Join(cols, ", ") + " FROM " + table + ";"
  }

  /** The statement and the generator state after it. */
  function SelectStmt(tables: seq<TableInfo>, s: u32): (Option<string>, u32)
  {
    if |tables| == 0 then (None, s)
    else
      var (d, s1) := Draw(s);
      var table := tables[d % |tables|];
      if |table.columns| == 0 then (None, s1)
      else
        var (sel, s2) := Sample(table.columns, s1);
        (Some(SelectText(table.name, sel)), s2)
  }

  method GenSelectStmt(tables: seq<TableInfo>, rng: LcgRng) returns (stmt: Option<string>)
    modifies rng
    ensures (stmt, rng.next) == SelectStmt(tables, old(rng.next))
  {
    if |tables| == 0 {
      return None;
    }
    var d := rng.Rand();
    var table := tables[d % |tables|];
    if |table.columns| == 0 {
      return None;
    }
    var selected := SampleColumns(table.columns, rng);
    stmt := Some(SelectText(table.name, selected));
  }

  /**
   * No statement exactly when there is no table (then nothing is drawn) or
   * the table the first draw picks has no columns.
   */
  lemma SelectNone(tables: seq<TableInfo>, s: u32)
    ensures SelectStmt(tables, s).0.None? <==>
      |tables| == 0 || |tables[TableIndex(|tables|, s)].columns| == 0
    ensures |tables| == 0 ==> SelectStmt(tables, s).1 == s
  {
  }

  /**
   * A SELECT names the table the first draw picks and between one and all
   * of its columns, each one of its columns and none twice when the table
   * has none twice, as the leading columns of a permutation of the table's
   * columns; it takes exactly one draw more than the table has columns.
   */
  lemma SelectProperties(tables: seq<TableInfo>, s: u32)
    requires SelectStmt(tables, s).0.Some?
    ensures |tables| > 0
    ensures var t := tables[TableIndex(|tables|, s)];
      var sel := Sample(t.columns, Next(s)).0;
      && |t.columns| > 0
      && SelectStmt(tables, s).0.value == "SELECT " + Join(sel, ", ") + " FROM " + t.name + ";"
      && 1 <= |sel| <= |t.columns|
      && sel == Shuffle(t.columns, Advance(s, 2)).0[..|sel|]
      && multiset(Shuffle(t.columns, Advance(s, 2)).0) == multiset(t.columns)
      && (forall c :: c in sel ==> c in t.columns)
      && (Distinct(t.columns) ==> Distinct(sel))
      && SelectStmt(tables, s).1 == Advance(s, |t.columns| + 1)
  {
    var t := tables[TableIndex(|tables|, s)];
    SampleProperties(t.columns, Next(s));
    AdvanceOne(s);
    AdvanceOne(Next(s));
    assert Advance(s, 2) == Advance(Advance(s, 1), 1) by { AdvanceAdd(s, 1, 1); }
    AdvanceAdd(s, 1, |t.columns|);
  }
}
