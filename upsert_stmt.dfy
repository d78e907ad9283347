/**
 * `gen_upsert_stmt` (executor/generators/common/upsert_stmt_common.rs).
 * The SET literals are built first and the VALUES literals after them,
 * each list drawing its own values.
 */
module UpsertStmtCommon {
  import opened Wrappers
  import opened Rng
  import opened Text
  import opened Schema
  import opened Sampling
  import opened DataType
  import opened UpdateStmtCommon

  function UpsertText(table: string, names: seq<string>, vals: seq<string>, target: string, items: seq<string>): string
  {
    "INSERT INTO " + table + " (" + Join(names, ", ") + ") VALUES (" + Join(vals, ", ")
    + ") ON CONFLICT(" + target + ") DO UPDATE SET " + Join(items, ", ") + ";"
  }

  function UpsertStmt(tables: seq<Table>, s: u32): (Option<string>, u32)
  {
    if |tables| == 0 then (None, s)
    else
      var (d, s1) := Draw(s);
      var table := tables[d % |tables|];
      if |table.columns| == 0 then (None, s1)
      else
        var (sel, s2) := Sample(table.columns, s1);
        var target := sel[0].name;
        var (setVals, s3) := Values(sel, s2);
        var (insertVals, s4) := Values(sel, s3);
        (Some(UpsertText(table.name, Names(sel), insertVals, target, SetItems(sel, setVals))), s4)
  }

  method GenUpsertStmt(tables: seq<Table>, rng: LcgRng) returns (stmt: Option<string>)
    modifies rng
    ensures (stmt, rng.next) == UpsertStmt(tables, old(rng.next))
  {
    if |tables| == 0 {
      return None;
    }
    var d := rng.Rand();
    var table := tables[d % |tables|];
    if |table.columns| == 0 {
      return None;
    }
    var selected := SampleColumns(table.columns, rng);
    var target := selected[0].name;
    var setValues := GenerateValues(selected, rng);
    var insertValues := GenerateValues(selected, rng);
    stmt := Some(UpsertText(table.name, Names(selected), insertValues, target, SetItems(selected, setValues)));
  }

  lemma UpsertNone(tables: seq<Table>, s: u32)
    ensures UpsertStmt(tables, s).0.None? <==>
      |tables| == 0 || |tables[TableIndex(|tables|, s)].columns| == 0
    ensures |tables| == 0 ==> UpsertStmt(tables, s).1 == s
  {
  }

  /** The statement in terms of the picked table, the sampled columns and the two literal lists. */
  lemma UpsertUnfold(tables: seq<Table>, s: u32)
    requires UpsertStmt(tables, s).0.Some?
    ensures |tables| > 0 && |Picked(tables, s).columns| > 0
    ensures var sel := Selected(tables, s);
      var afterSample := Sample(Picked(tables, s).columns, Next(s)).1;
      var setVals := Values(sel, afterSample);
      var insertVals := Values(sel, setVals.1);
      UpsertStmt(tables, s)
        == (Some(UpsertText(Picked(tables, s).name, Names(sel), insertVals.0, sel[0].name, SetItems(sel, setVals.0))),
            insertVals.1)
  {
  }

  /**
   * The conflict target is the first selected column; the column list, the
   * VALUES list and the SET list follow the selected columns in the same
   * order with equal lengths; the SET literals are drawn right after the
   * sampling and the VALUES literals after them, each typed by its column.
   */
  lemma UpsertProperties(tables: seq<Table>, s: u32)
    requires UpsertStmt(tables, s).0.Some?
    ensures |tables| > 0 && |Picked(tables, s).columns| > 0
    ensures var t := Picked(tables, s);
      var sel := Selected(tables, s);
      var afterSample := Advance(s, |t.columns| + 1);
      var afterSet := Advance(afterSample, DrawCount(sel));
      var setVals := Values(sel, afterSample).0;
      var insertVals := Values(sel, afterSet).0;
      && UpsertStmt(tables, s).0.value
         == UpsertText(t.name, Names(sel), insertVals, sel[0].name, SetItems(sel, setVals))
      && |Names(sel)| == |insertVals| == |SetItems(sel, setVals)| == |sel| >= 1
      && (forall k :: 0 <= k < |sel| ==>
            SetItems(sel, setVals)[k] == sel[k].name + " = " + setVals[k]
            && LiteralFor(sel[k].ty, setVals[k]) && LiteralFor(sel[k].ty, insertVals[k]))
      && UpsertStmt(tables, s).1 == Advance(s, |t.columns| + 1 + 2 * DrawCount(sel))
  {
    UpsertUnfold(tables, s);
    SelectedProperties(tables, s);
    var t := Picked(tables, s);
    var sel := Selected(tables, s);
    var afterSample := Advance(s, |t.columns| + 1);
    ValuesAt(sel, afterSample);
    var afterSet := Advance(afterSample, DrawCount(sel));
    ValuesAt(sel, afterSet);
    assert Advance(afterSet, DrawCount(sel)) == Advance(s, |t.columns| + 1 + 2 * DrawCount(sel)) by {
      AdvanceAdd(afterSample, DrawCount(sel), DrawCount(sel));
      AdvanceAdd(s, |t.columns| + 1, 2 * DrawCount(sel));
    }
  }
}
