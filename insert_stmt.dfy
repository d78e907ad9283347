/** `gen_insert_stmt` (executor/generators/common/insert_stmt_common.rs). */
module InsertStmtCommon {
  import opened Wrappers
  import opened Rng
  import opened Text
  import opened Schema
  import opened Sampling
  import opened DataType

  function InsertText(table: string, names: seq<string>, vals: seq<string>): string
  {
    "INSERT INTO " + table + " (" + Join(names, ", ") + ") VALUES (" + Join(vals, ", ") + ");"
  }

  function InsertStmt(tables: seq<Table>, s: u32): (Option<string>, u32)
  {
    if |tables| == 0 then (None, s)
    else
      var (d, s1) := Draw(s);
      var table := tables[d % |tables|];
      if |table.columns| == 0 then (None, s1)
      else
        var (sel, s2) := Sample(table.columns, s1);
        var (vals, s3) := Values(sel, s2);
        (Some(InsertText(table.name, Names(sel), vals)), s3)
  }

  method GenInsertStmt(tables: seq<Table>, rng: LcgRng) returns (stmt: Option<string>)
    modifies rng
    ensures (stmt, rng.next) == InsertStmt(tables, old(rng.next))
  {
    if |tables| == 0 {
      return None;
    }
    var d := rng.Rand();
    var table := tables[d % |tables|];
    if |table.columns| == 0 {
      return None;
    }
    var selected := SampleColumns(table.columns, rng);
    var values := GenerateValues(selected, rng);
    stmt := Some(InsertText(table.name, Names(selected), values));
  }

  /** No statement exactly when there is no table (nothing drawn) or the picked table has no columns. */
  lemma InsertNone(tables: seq<Table>, s: u32)
    ensures InsertStmt(tables, s).0.None? <==>
      |tables| == 0 || |tables[TableIndex(|tables|, s)].columns| == 0
    ensures |tables| == 0 ==> InsertStmt(tables, s).1 == s
  {
  }

  /**
   * An INSERT names the picked table and its selected columns, then one
   * literal per selected column in the same order, the literals drawn after
   * all sampling draws.
   */
  lemma InsertShape(tables: seq<Table>, s: u32)
    requires InsertStmt(tables, s).0.Some?
    ensures |tables| > 0 && |Picked(tables, s).columns| > 0
    ensures var sel := Selected(tables, s);
      var after := Advance(s, |Picked(tables, s).columns| + 1);
      InsertStmt(tables, s)
      == (Some(InsertText(Picked(tables, s).name, Names(sel), Values(sel, after).0)), Values(sel, after).1)
  {
    SelectedProperties(tables, s);
  }

  /**
   * Type consistency: the k-th literal is `ValueByType` of the k-th selected
   * column's type, drawn after the earlier columns' literals, with that
   * type's syntax; the statement consumes the sampling draws and then one
   * draw per INTEGER, REAL or TEXT column.
   */
  lemma InsertLiterals(tables: seq<Table>, s: u32)
    requires InsertStmt(tables, s).0.Some?
    ensures |tables| > 0 && |Picked(tables, s).columns| > 0
    ensures var sel := Selected(tables, s);
      var after := Advance(s, |Picked(tables, s).columns| + 1);
      var vals := Values(sel, after).0;
      && |vals| == |sel|
      && (forall k :: 0 <= k < |sel| ==>
            vals[k] == ValueByType(sel[k].ty, Advance(after, DrawCount(sel[..k]))).0
            && LiteralFor(sel[k].ty, vals[k]))
      && InsertStmt(tables, s).1 == Advance(s, |Picked(tables, s).columns| + 1 + DrawCount(sel))
  {
    InsertShape(tables, s);
    var sel := Selected(tables, s);
    var after := Advance(s, |Picked(tables, s).columns| + 1);
    ValuesAt(sel, after);
    AdvanceAdd(s, |Picked(tables, s).columns| + 1, DrawCount(sel));
  }
}
