/**
 * `get_insert_stmt_by_seed` (src/generators/sqlite/insert_stmt.rs), the
 * legacy INSERT builder: every column of the picked table, in the order the
 * column lookup reports them, each with a literal chosen by its exact type
 * name. The table list and the column lookup are inputs.
 */
module LegacyInsert {
  import opened Wrappers
  import opened Rng
  import opened Text
  import opened Schema
  import opened DataType

  /** The lower-case letter a draw stands for: `(draw % 26) + 97`. */
  function Letter(d: nat): (c: char)
    ensures 'a' <= c <= 'z'
  {
    (97 + d % 26) as char
  }

  /** `n` letters, one draw each. */
  function Letters(s: u32, n: nat): (r: (string, u32))
    ensures |r.0| == n
    decreases n
  {
    if n == 0 then ("", s)
    else
      var rest := Letters(Next(s), n - 1);
      ([Letter(Output(Next(s)))] + rest.0, rest.1)
  }

  /**
   * `format!("{:.2}", m as f64 / 100.0)` for `m < 10000`: the double nearest
   * `m / 100` lies well within half a hundredth of it, so two-place rounding
   * gives the whole part, a point and exactly two digits of `m % 100`.
   */
  function Fixed2(m: nat): string
  {
    NatToString(m / 100) + "." + [DigitChar(m % 100 / 10), DigitChar(m % 10)]
  }

  /** The literal of one column, matched on the type name exactly as written. */
  function LegacyValue(ty: string, s: u32): (string, u32)
  {
    if ty == "INTEGER" then
      var (d, s1) := Draw(s);
      (NatToString(d % 1000), s1)
    else if ty == "TEXT" then
      var (text, s1) := Letters(s, 10);
      ("'" + text + "'", s1)
    else if ty == "REAL" then
      var (d, s1) := Draw(s);
      (Fixed2(d % 10000), s1)
    else ("'default_value'", s)
  }

  /** How many draws one column's literal takes. */
  function LegacyDraws(ty: string): nat
  {
    if ty == "INTEGER" || ty == "REAL" then 1 else if ty == "TEXT" then 10 else 0
  }

  function LegacyDrawCount(cols: seq<Column>): nat
  {
    if |cols| == 0 then 0 else LegacyDraws(cols[0].ty) + LegacyDrawCount(cols[1..])
  }

  /** The literals of all columns, in column order. */
  function LegacyValues(cols: seq<Column>, s: u32): (r: (seq<string>, u32))
    ensures |r.0| == |cols|
  {
    if |cols| == 0 then ([], s)
    else
      var (v, s1) := LegacyValue(cols[0].ty, s);
      var (rest, s2) := LegacyValues(cols[1..], s1);
      ([v] + rest, s2)
  }

  function LegacyInsertText(table: string, names: seq<string>, vals: seq<string>): string
  {
    "INSERT INTO `" + table + "` (" + Join(names, ", ") + ") VALUES (" + Join(vals, ", ") + ");"
  }

  /**
   * The statement and the state after it. `tables` is `schema::get` (None
   * when the read fails); `lookup` is the `PRAGMA table_info` query of a
   * table (None when it fails), with its unreadable rows already skipped.
   */
  function LegacyInsertStmt(tables: Option<seq<TableInfo>>, lookup: string -> Option<seq<Column>>, s: u32)
    : (Option<string>, u32)
  {
    if tables.None? || |tables.value| == 0 then (None, s)
    else
      var (d, s1) := Draw(s);
      var table := tables.value[d % |tables.value|];
      match lookup(table.name)
      case None => (None, s1)
      case Some(cols) =>
        var (vals, s2) := LegacyValues(cols, s1);
        (Some(LegacyInsertText(table.name, Names(cols), vals)), s2)
  }

  /** The inner loop of the TEXT arm: `n` letters, one draw each. */
  method DrawLetters(rng: LcgRng, n: nat) returns (text: string)
    modifies rng
    ensures (text, rng.next) == Letters(old(rng.next), n)
  {
    ghost var goal := Letters(rng.next, n);
    text := "";
    var k := 0;
    while k < n
      invariant 0 <= k <= n
      invariant goal.0 == text + Letters(rng.next, n - k).0
      invariant goal.1 == Letters(rng.next, n - k).1
    {
      LettersStep(text, rng.next, n - k);
      var x := rng.Rand();
      text := text + [Letter(x)];
      k := k + 1;
    }
    assert Letters(rng.next, 0) == ("", rng.next);
    assert text == goal.0;
  }

  /** One step of `Letters`: the first draw's letter, then the rest. */
  lemma LettersStep(done: string, s: u32, n: nat)
    requires n > 0
    ensures (done + [Letter(Output(Next(s)))]) + Letters(Next(s), n - 1).0 == done + Letters(s, n).0
    ensures Letters(s, n).1 == Letters(Next(s), n - 1).1
  {
  }

  /** The match on the exact type name, drawing from `rng`. */
  method ColumnLiteral(ty: string, rng: LcgRng) returns (v: string)
    modifies rng
    ensures (v, rng.next) == LegacyValue(ty, old(rng.next))
  {
    if ty == "INTEGER" {
      var x := rng.Rand();
      v := NatToString(x % 1000);
    } else if ty == "TEXT" {
      var text := DrawLetters(rng, 10);
      v := "'" + text + "'";
    } else if ty == "REAL" {
      var x := rng.Rand();
      v := Fixed2(x % 10000);
    } else {
      v := "'default_value'";
    }
  }

  /** One step of `LegacyValues`: column `i`'s literal, then the rest from where it stopped. */
  lemma LegacyValuesCons(cols: seq<Column>, i: nat, s: u32)
    requires i < |cols|
    ensures var (v, s1) := LegacyValue(cols[i].ty, s);
      LegacyValues(cols[i..], s) == ([v] + LegacyValues(cols[i + 1..], s1).0, LegacyValues(cols[i + 1..], s1).1)
  {
    assert cols[i..][1..] == cols[i + 1..];
  }

  /** After column `i`'s literal the rest of the literals continue from where it stopped. */
  lemma LegacyValuesStep(values: seq<string>, cols: seq<Column>, i: nat, s: u32, v: string, s1: u32)
    requires i < |cols| && (v, s1) == LegacyValue(cols[i].ty, s)
    ensures (values + [v]) + LegacyValues(cols[i + 1..], s1).0 == values + LegacyValues(cols[i..], s).0
    ensures LegacyValues(cols[i + 1..], s1).1 == LegacyValues(cols[i..], s).1
  {
    LegacyValuesCons(cols, i, s);
  }

  method GetInsertStmtBySeed(tables: Option<seq<TableInfo>>, lookup: string -> Option<seq<Column>>, rng: LcgRng)
    returns (stmt: Option<string>)
    modifies rng
    ensures (stmt, rng.next) == LegacyInsertStmt(tables, lookup, old(rng.next))
  {
    if tables.None? || |tables.value| == 0 {
      return None;
    }
    var d := rng.Rand();
    var table := tables.value[d % |tables.value|];
    var info := lookup(table.name);
    if info.None? {
      return None;
    }
    var columns := info.value;
    ghost var s1 := rng.next;
    var colNames: seq<string> := [];
    var values: seq<string> := [];
    for i := 0 to |columns|
      invariant colNames == Names(columns[..i])
      invariant values + LegacyValues(columns[i..], rng.next).0 == LegacyValues(columns, s1).0
      invariant LegacyValues(columns[i..], rng.next).1 == LegacyValues(columns, s1).1
    {
      ghost var s0 := rng.next;
      assert colNames + [columns[i].name] == Names(columns[..i + 1]) by {
        assert columns[..i + 1] == columns[..i] + [columns[i]];
      }
      colNames := colNames + [columns[i].name];
      var v := ColumnLiteral(columns[i].ty, rng);
      LegacyValuesStep(values, columns, i, s0, v, rng.next);
      values := values + [v];
    }
    assert columns[..|columns|] == columns;
    assert columns[|columns|..] == [];
    assert LegacyValues(columns[|columns|..], rng.next) == ([], rng.next);
    assert colNames == Names(columns);
    assert values == LegacyValues(columns, s1).0;
    stmt := Some(LegacyInsertText(table.name, colNames, values));
  }

  /** The letters are those of the draws, one per draw, and use up exactly `n` draws. */
  lemma {:induction false} LettersOfDraws(s: u32, n: nat)
    ensures Letters(s, n).1 == Advance(s, n)
    ensures forall k :: 0 <= k < n ==> Letters(s, n).0[k] == Letter(Draws(s, n)[k])
    decreases n
  {
    if n > 0 {
      LettersOfDraws(Next(s), n - 1);
    }
  }

  /** Two digit characters read back as the two-digit number. */
  lemma TwoDigitsRead(a: nat, b: nat)
    requires a < 10 && b < 10
    ensures AllDigits([DigitChar(a), DigitChar(b)]) && ParseNat([DigitChar(a), DigitChar(b)]) == 10 * a + b
  {
    var f := [DigitChar(a), DigitChar(b)];
    assert f[..1] == [DigitChar(a)];
    assert f[..1][..0] == [];
    DigitRoundTrip(a);
    DigitRoundTrip(b);
    assert ParseNat(f[..1]) == ParseNat(f[..1][..0]) * 10 + DigitValue(f[0]) == a;
    assert ParseNat(f) == ParseNat(f[..1]) * 10 + DigitValue(f[1]);
  }

  /** The two-place text reads back as the whole part, a point, and the hundredths. */
  lemma Fixed2Reads(m: nat)
    ensures var r := Fixed2(m);
      |r| >= 4 && r[|r| - 3] == '.'
      && AllDigits(r[..|r| - 3]) && ParseNat(r[..|r| - 3]) == m / 100
      && AllDigits(r[|r| - 2..]) && ParseNat(r[|r| - 2..]) == m % 100
  {
    var r := Fixed2(m);
    var w := NatToString(m / 100);
    var f := [DigitChar(m % 100 / 10), DigitChar(m % 10)];
    assert r == w + "." + f;
    assert r[..|r| - 3] == w;
    assert r[|r| - 2..] == f;
    NatToStringRoundTrip(m / 100);
    TwoDigitsRead(m % 100 / 10, m % 10);
    HundredthsDigits(m);
  }

  /** The hundredths of `m` are its tens digit and its units digit. */
  lemma HundredthsDigits(m: nat)
    ensures 10 * (m % 100 / 10) + m % 10 == m % 100
  {
    var d := m % 100;
    assert m == 100 * (m / 100) + d;
    assert m % 10 == d % 10;
  }

  /**
   * The literal of each exact type name: INTEGER a number below 1000; TEXT
   * ten lower-case letters, one per draw, in single quotes; REAL a
   * two-place decimal of `draw % 10000` hundredths; any other name,
   * lower-case spellings included, `'default_value'` with no draw.
   */
  lemma LegacyValueProperties(ty: string, s: u32)
    ensures LegacyValue(ty, s).1 == Advance(s, LegacyDraws(ty))
    ensures ty == "INTEGER" ==> IsSmallInteger(LegacyValue(ty, s).0)
    ensures ty == "TEXT" ==> var v := LegacyValue(ty, s).0;
      |v| == 12 && v[0] == '\'' && v[11] == '\''
      && forall k :: 1 <= k <= 10 ==> v[k] == Letter(Draws(s, 10)[k - 1])
    ensures ty == "REAL" ==> LegacyValue(ty, s).0 == Fixed2(Output(Next(s)) % 10000)
    ensures ty != "INTEGER" && ty != "TEXT" && ty != "REAL" ==> LegacyValue(ty, s) == ("'default_value'", s)
  {
    if ty == "INTEGER" {
      SmallInteger(Output(Next(s)) % 1000);
      AdvanceOne(s);
    } else if ty == "TEXT" {
      LettersOfDraws(s, 10);
    } else if ty == "REAL" {
      AdvanceOne(s);
    }
  }

  /** The literal list consumes the draws of each column in turn. */
  lemma {:induction false} LegacyValuesDraws(cols: seq<Column>, s: u32)
    ensures LegacyValues(cols, s).1 == Advance(s, LegacyDrawCount(cols))
    decreases |cols|
  {
    if |cols| > 0 {
      var (v, s1) := LegacyValue(cols[0].ty, s);
      LegacyValueProperties(cols[0].ty, s);
      LegacyValuesDraws(cols[1..], s1);
      AdvanceAdd(s, LegacyDraws(cols[0].ty), LegacyDrawCount(cols[1..]));
    }
  }

  /** The k-th literal is that of the k-th column's type, drawn after all earlier columns. */
  lemma {:induction false} LegacyValueAt(cols: seq<Column>, s: u32, k: nat)
    requires k < |cols|
    ensures LegacyValues(cols, s).0[k] == LegacyValue(cols[k].ty, Advance(s, LegacyDrawCount(cols[..k]))).0
    decreases k
  {
    var (v, s1) := LegacyValue(cols[0].ty, s);
    assert LegacyValues(cols, s).0 == [v] + LegacyValues(cols[1..], s1).0;
    if k == 0 {
      assert cols[..0] == [];
    } else {
      LegacyValueAt(cols[1..], s1, k - 1);
      var before := LegacyDrawCount(cols[1..][..k - 1]);
      assert s1 == Advance(s, LegacyDraws(cols[0].ty)) by {
        LegacyValueProperties(cols[0].ty, s);
      }
      assert LegacyDrawCount(cols[..k]) == LegacyDraws(cols[0].ty) + before by {
        assert cols[..k][1..] == cols[1..][..k - 1];
      }
      AdvanceAdd(s, LegacyDraws(cols[0].ty), before);
      assert cols[1..][k - 1] == cols[k];
    }
  }

  /**
   * No statement exactly when the table list is unreadable or empty (then
   * nothing is drawn) or the picked table's column lookup fails.
   */
  lemma LegacyInsertNone(tables: Option<seq<TableInfo>>, lookup: string -> Option<seq<Column>>, s: u32)
    ensures LegacyInsertStmt(tables, lookup, s).0.None? <==>
      tables.None? || |tables.value| == 0 || lookup(tables.value[Output(Next(s)) % |tables.value|].name).None?
    ensures tables.None? || |tables.value| == 0 ==> LegacyInsertStmt(tables, lookup, s).1 == s
  {
  }

  /**
   * Otherwise the statement names the picked table in backticks, lists every
   * looked-up column in order and one literal per column, the k-th drawn
   * after the table draw and the earlier columns' draws; it takes one draw
   * plus the columns' draws.
   */
  lemma LegacyInsertShape(tables: seq<TableInfo>, lookup: string -> Option<seq<Column>>, s: u32)
    requires |tables| > 0 && lookup(tables[Output(Next(s)) % |tables|].name).Some?
    ensures var table := tables[Output(Next(s)) % |tables|];
      var cols := lookup(table.name).value;
      var vals := LegacyValues(cols, Next(s)).0;
      && LegacyInsertStmt(Some(tables), lookup, s).0 == Some(LegacyInsertText(table.name, Names(cols), vals))
      && |vals| == |cols|
      && (forall k :: 0 <= k < |cols| ==>
            vals[k] == LegacyValue(cols[k].ty, Advance(Next(s), LegacyDrawCount(cols[..k]))).0)
      && LegacyInsertStmt(Some(tables), lookup, s).1 == Advance(s, 1 + LegacyDrawCount(cols))
  {
    var table := tables[Output(Next(s)) % |tables|];
    var cols := lookup(table.name).value;
    LegacyValuesDraws(cols, Next(s));
    AdvanceOne(s);
    AdvanceAdd(s, 1, LegacyDrawCount(cols));
    forall k | 0 <= k < |cols|
      ensures LegacyValues(cols, Next(s)).0[k] == LegacyValue(cols[k].ty, Advance(Next(s), LegacyDrawCount(cols[..k]))).0
    {
      LegacyValueAt(cols, Next(s), k);
    }
  }

  /** Types are matched case-sensitively: a lower-case `integer` column gets the default literal. */
  lemma CaseSensitive(s: u32)
    ensures LegacyValue("integer", s) == ("'default_value'", s)
    ensures Tag("integer") == Integer
  {
    TagIgnoresCase("integer");
    assert ToUpper("integer") == "INTEGER";
  }
}
