/**
 * `gen_update_stmt` (executor/generators/common/update_stmt_common.rs).
 * Its inline match on the upper-cased type is the match of
 * `generate_value_by_type`, so the literals come from `DataType.Values`.
 */
module UpdateStmtCommon {
  import opened Wrappers
  import opened Rng
  import opened Text
  import opened Schema
  import opened Sampling
  import opened DataType

  /** `name = value` for each selected column. */
  function SetItems(cols: seq<Column>, vals: seq<string>): (items: seq<string>)
    requires |vals| == |cols|
    ensures |items| == |cols|
    ensures forall k :: 0 <= k < |cols| ==> items[k] == cols[k].name + " = " + vals[k]
  {
    seq(|cols|, k requires 0 <= k < |cols| => cols[k].name + " = " + vals[k])
  }

  function UpdateText(table: string, items: seq<string>): string
  {
    "UPDATE " + table + " SET " + Join(items, ", ") + " WHERE 1=1;"
  }

  function UpdateStmt(tables: seq<Table>, s: u32): (Option<string>, u32)
  {
    if |tables| == 0 then (None, s)
    else
      var (d, s1) := Draw(s);
      var table := tables[d % |tables|];
      if |table.columns| == 0 then (None, s1)
      else
        var (sel, s2) := Sample(table.columns, s1);
        var (vals, s3) := Values(sel, s2);
        (Some(UpdateText(table.name, SetItems(sel, vals))), s3)
  }

  method GenUpdateStmt(tables: seq<Table>, rng: LcgRng) returns (stmt: Option<string>)
    modifies rng
    ensures (stmt, rng.next) == UpdateStmt(tables, old(rng.next))
  {
    if |tables| == 0 {
      return None;
    }
    var d := rng.Rand();
    var table := tables[d % |tables|];
    if |table.columns| == 0 {
      return None;
    }
    var selected := SampleColumns(table.columns, rng);
    var values := GenerateValues(selected, rng);
    stmt := Some(UpdateText(table.name, SetItems(selected, values)));
  }

  lemma UpdateNone(tables: seq<Table>, s: u32)
    ensures UpdateStmt(tables, s).0.None? <==>
      |tables| == 0 || |tables[TableIndex(|tables|, s)].columns| == 0
    ensures |tables| == 0 ==> UpdateStmt(tables, s).1 == s
  {
  }

  /**
   * An UPDATE is unconditional (`WHERE 1=1`) and sets the selected columns
   * of the picked table, one `name = literal` item per column in selected
   * order, the literals drawn after all sampling draws.
   */
  lemma UpdateShape(tables: seq<Table>, s: u32)
    requires UpdateStmt(tables, s).0.Some?
    ensures |tables| > 0 && |Picked(tables, s).columns| > 0
    ensures var sel := Selected(tables, s);
      var after := Advance(s, |Picked(tables, s).columns| + 1);
      UpdateStmt(tables, s)
      == (Some("UPDATE " + Picked(tables, s).name + " SET " + Join(SetItems(sel, Values(sel, after).0), ", ") + " WHERE 1=1;"),
          Values(sel, after).1)
  {
    SelectedProperties(tables, s);
  }

  /**
   * Each SET item is `name = literal` for the k-th selected column, the
   * literal `ValueByType` of its type with that type's syntax (INTEGER a
   * number below 1000, TEXT `'val<n>'`, BLOB `'blob'`, otherwise `NULL`);
   * as many items as selected columns; BLOB and unknown types draw nothing.
   */
  lemma UpdateItems(tables: seq<Table>, s: u32)
    requires UpdateStmt(tables, s).0.Some?
    ensures |tables| > 0 && |Picked(tables, s).columns| > 0
    ensures var sel := Selected(tables, s);
      var after := Advance(s, |Picked(tables, s).columns| + 1);
      var vals := Values(sel, after).0;
      var items := SetItems(sel, vals);
      && 1 <= |items| == |sel| <= |Picked(tables, s).columns|
      && (forall k :: 0 <= k < |sel| ==>
            items[k] == sel[k].name + " = " + vals[k]
            && vals[k] == ValueByType(sel[k].ty, Advance(after, DrawCount(sel[..k]))).0
            && LiteralFor(sel[k].ty, vals[k]))
      && UpdateStmt(tables, s).1 == Advance(s, |Picked(tables, s).columns| + 1 + DrawCount(sel))
  {
    UpdateShape(tables, s);
    SelectedProperties(tables, s);
    var sel := Selected(tables, s);
    var after := Advance(s, |Picked(tables, s).columns| + 1);
    ValuesAt(sel, after);
    AdvanceAdd(s, |Picked(tables, s).columns| + 1, DrawCount(sel));
  }
}
