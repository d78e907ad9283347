/**
 * `gen_delete_stmt` (executor/generators/common/delete_stmt_common.rs):
 * one predicate on the picked table's first column, no shuffle.
 */
module DeleteStmtCommon {
  import opened Wrappers
  import opened Rng
  import opened Text
  import opened Schema
  import opened Sampling

  /** The right-hand side: a selector draw modulo 4 picks one of four policies. */
  function PredicateValue(s: u32): (string, u32)
  {
    var (sel, s1) := Draw(s);
    match sel % 4
    case 0 =>
      var (d, s2) := Draw(s1);
      (NatToString(d % 1000), s2)
    case 1 =>
      var (d, s2) := Draw(s1);
      ("'val" + NatToString(d % 1000) + "'", s2)
    case 2 => ("NULL", s1)
    case _ => ("1", s1)
  }

  /** `columns.iter().take(1).map(...)`: a predicate for the first column only. */
  function WherePredicates(cols: seq<Column>, s: u32): (seq<string>, u32)
  {
    if |cols| == 0 then ([], s)
    else
      var (v, s1) := PredicateValue(s);
      ([cols[0].name + " = " + v], s1)
  }

  function DeleteStmt(tables: seq<Table>, s: u32): (Option<string>, u32)
  {
    if |tables| == 0 then (None, s)
    else
      var (d, s1) := Draw(s);
      var table := tables[d % |tables|];
      if |table.columns| == 0 then (None, s1)
      else
        var (preds, s2) := WherePredicates(table.columns, s1);
        (Some("DELETE FROM " + table.name + " WHERE " + Join(preds, " AND ") + ";"), s2)
  }

  lemma DeleteNone(tables: seq<Table>, s: u32)
    ensures DeleteStmt(tables, s).0.None? <==>
      |tables| == 0 || |tables[TableIndex(|tables|, s)].columns| == 0
    ensures |tables| == 0 ==> DeleteStmt(tables, s).1 == s
  {
  }

  /**
   * A DELETE has exactly one predicate, on the picked table's first column
   * in schema order: `c = v` where, by the selector draw modulo 4, `v` is a
   * number below 1000, `'val<n>'` with n below 1000, `NULL` or `1`; cases 0
   * and 1 take three draws in all, cases 2 and 3 two.
   */
  lemma DeleteProperties(tables: seq<Table>, s: u32)
    requires DeleteStmt(tables, s).0.Some?
    ensures |tables| > 0 && |Picked(tables, s).columns| > 0
    ensures var t := Picked(tables, s);
      var selector := Output(Advance(s, 2)) % 4;
      var n := Output(Advance(s, 3)) % 1000;
      var v := PredicateValue(Next(s)).0;
      && |WherePredicates(t.columns, Next(s)).0| == 1
      && DeleteStmt(tables, s).0.value == "DELETE FROM " + t.name + " WHERE " + t.columns[0].name + " = " + v + ";"
      && (selector == 0 ==> v == NatToString(n) && n < 1000 && DeleteStmt(tables, s).1 == Advance(s, 3))
      && (selector == 1 ==> v == "'val" + NatToString(n) + "'" && DeleteStmt(tables, s).1 == Advance(s, 3))
      && (selector == 2 ==> v == "NULL" && DeleteStmt(tables, s).1 == Advance(s, 2))
      && (selector == 3 ==> v == "1" && DeleteStmt(tables, s).1 == Advance(s, 2))
  {
    AdvanceAdd(s, 1, 1);
    AdvanceAdd(s, 2, 1);
    AdvanceOne(s);
    AdvanceOne(Next(s));
    AdvanceOne(Advance(s, 2));
  }
}
