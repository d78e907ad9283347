/**
 * `get_pragma_stmt_by_seed` (executor/generators/common/pragma_stmt_common.rs):
 * a uniform pick from a fixed catalog of thirty PRAGMA descriptors, then an
 * argument drawn according to the descriptor's kind.
 */
module PragmaStmtCommon {
  import opened Wrappers
  import opened Rng
  import opened Text

  datatype PragmaKind =
    | NoArg(name: string)
    | BoolArg(name: string)
    | IntArg(name: string, min: int, max: int)
    | StringArg(name: string)

  const PRAGMAS: seq<PragmaKind> := [
    NoArg("integrity_check"),
    NoArg("quick_check"),
    NoArg("foreign_key_check"),
    NoArg("database_list"),
    NoArg("collation_list"),
    NoArg("table_info"),
    NoArg("index_list"),
    NoArg("index_info"),
    NoArg("stats"),
    NoArg("page_count"),
    NoArg("schema_version"),
    NoArg("user_version"),
    NoArg("encoding"),
    BoolArg("foreign_keys"),
    BoolArg("case_sensitive_like"),
    BoolArg("automatic_index"),
    BoolArg("cache_spill"),
    BoolArg("recursive_triggers"),
    BoolArg("journal_size_limit"),
    BoolArg("legacy_file_format"),
    BoolArg("writable_schema"),
    IntArg("cache_size", 100, 10000),
    IntArg("page_size", 512, 65536),
    IntArg("mmap_size", 0, 104857600),
    IntArg("wal_autocheckpoint", 1, 10000),
    StringArg("journal_mode"),
    StringArg("locking_mode"),
    StringArg("synchronous"),
    StringArg("temp_store"),
    StringArg("encoding")
  ]

  /** The fixed value lists of the string-valued pragmas; empty for any other name. */
  function Choices(name: string): seq<string>
  {
    if name == "journal_mode" then ["DELETE", "TRUNCATE", "PERSIST", "MEMORY", "WAL", "OFF"]
    else if name == "locking_mode" then ["NORMAL", "EXCLUSIVE"]
    else if name == "synchronous" then ["OFF", "NORMAL", "FULL", "EXTRA"]
    else if name == "temp_store" then ["DEFAULT", "FILE", "MEMORY"]
    else if name == "encoding" then ["\"UTF-8\"", "\"UTF-16\"", "\"UTF-16le\"", "\"UTF-16be\""]
    else []
  }

  /** A string value: one draw modulo the list length, or `ON` without a draw for an unlisted name. */
  function StringValue(name: string, s: u32): (string, u32)
  {
    var choices := Choices(name);
    if |choices| == 0 then ("ON", s)
    else
      var (d, s1) := Draw(s);
      (choices[d % |choices|], s1)
  }

  /** The decimal text of an `i64`, negative values with a minus sign. */
  function IntToString(n: int): string
  {
    if n < 0 then "-" + NatToString(-n) else NatToString(n)
  }

  /** An integer range is non-empty, so that `max - min + 1` is a valid modulus. */
  predicate WellFormed(p: PragmaKind)
  {
    p.IntArg? ==> p.min <= p.max
  }

  function RenderPragma(p: PragmaKind, s: u32): (string, u32)
    requires WellFormed(p)
  {
    match p
    case NoArg(name) => ("PRAGMA " + name + ";", s)
    case BoolArg(name) =>
      var (d, s1) := Draw(s);
      ("PRAGMA " + name + " = " + (if d % 2 == 0 then "ON" else "OFF") + ";", s1)
    case IntArg(name, min, max) =>
      var (d, s1) := Draw(s);
      ("PRAGMA " + name + " = " + IntToString(min + d % (max - min + 1)) + ";", s1)
    case StringArg(name) =>
      var (v, s1) := StringValue(name, s);
      ("PRAGMA " + name + " = " + v + ";", s1)
  }

  /** The statement and the state after it; the connection is not consulted. */
  function PragmaStmt(s: u32): (Option<string>, u32)
  {
    var (d, s1) := Draw(s);
    CatalogWellFormed();
    var (sql, s2) := RenderPragma(PRAGMAS[d % |PRAGMAS|], s1);
    (Some(sql), s2)
  }

  /** The catalog has thirty entries, every integer range is non-empty, every string-valued name has its list. */
  lemma CatalogWellFormed()
    ensures |PRAGMAS| == 30
    ensures forall i :: 0 <= i < |PRAGMAS| ==> WellFormed(PRAGMAS[i])
    ensures forall i :: 0 <= i < |PRAGMAS| && PRAGMAS[i].StringArg? ==> |Choices(PRAGMAS[i].name)| > 0
    ensures |Choices("journal_mode")| == 6
  {
  }

  /** The entry is the first draw modulo thirty, and a statement is always produced. */
  lemma PragmaAlwaysSome(s: u32)
    ensures PragmaStmt(s).0.Some?
    ensures WellFormed(PRAGMAS[Output(Next(s)) % 30])
    ensures PragmaStmt(s) == (Some(RenderPragma(PRAGMAS[Output(Next(s)) % 30], Next(s)).0),
                              RenderPragma(PRAGMAS[Output(Next(s)) % 30], Next(s)).1)
  {
    CatalogWellFormed();
  }

  /** NoArg renders `PRAGMA name;` and draws nothing more. */
  lemma RenderNoArg(name: string, s: u32)
    ensures RenderPragma(NoArg(name), s) == ("PRAGMA " + name + ";", s)
  {
  }

  /** BoolArg renders `= ON` exactly when the argument draw is even, else `= OFF`, with one draw. */
  lemma RenderBoolArg(name: string, s: u32)
    ensures RenderPragma(BoolArg(name), s).1 == Next(s)
    ensures Output(Next(s)) % 2 == 0 ==> RenderPragma(BoolArg(name), s).0 == "PRAGMA " + name + " = ON;"
    ensures Output(Next(s)) % 2 != 0 ==> RenderPragma(BoolArg(name), s).0 == "PRAGMA " + name + " = OFF;"
  {
  }

  /** IntArg renders a number in [min, max], never above min + 32767, with one draw. */
  lemma RenderIntArg(name: string, min: int, max: int, s: u32)
    requires min <= max
    ensures RenderPragma(IntArg(name, min, max), s).1 == Next(s)
    ensures var n := min + Output(Next(s)) % (max - min + 1);
      && min <= n <= max && n <= min + RAND_MAX
      && RenderPragma(IntArg(name, min, max), s).0 == "PRAGMA " + name + " = " + IntToString(n) + ";"
  {
    var m, d := max - min + 1, Output(Next(s));
    ModBounds(d, m);
    assert RenderPragma(IntArg(name, min, max), s)
      == ("PRAGMA " + name + " = " + IntToString(min + d % m) + ";", Next(s));
  }

  lemma ModBounds(d: nat, m: int)
    requires m > 0
    ensures 0 <= d % m < m && d % m <= d
  {
    if d < m {
      assert d % m == d;
    }
  }

  /** StringArg renders one of the name's fixed values, chosen by the argument draw. */
  lemma RenderStringArg(name: string, s: u32)
    requires |Choices(name)| > 0
    ensures RenderPragma(StringArg(name), s).1 == Next(s)
    ensures var v := Choices(name)[Output(Next(s)) % |Choices(name)|];
      v in Choices(name) && RenderPragma(StringArg(name), s).0 == "PRAGMA " + name + " = " + v + ";"
  {
  }

  /** `NoArg` statements use one draw in total; every other kind two. */
  lemma PragmaDraws(s: u32)
    ensures PRAGMAS[Output(Next(s)) % 30].NoArg? ==> PragmaStmt(s).1 == Advance(s, 1)
    ensures !PRAGMAS[Output(Next(s)) % 30].NoArg? ==> PragmaStmt(s).1 == Advance(s, 2)
  {
    CatalogWellFormed();
    match PRAGMAS[Output(Next(s)) % 30] {
      case NoArg(name) => RenderNoArg(name, Next(s));
      case BoolArg(name) => RenderBoolArg(name, Next(s));
      case IntArg(name, min, max) => RenderIntArg(name, min, max, Next(s));
      case StringArg(name) => RenderStringArg(name, Next(s));
    }
    AdvanceOne(s);
    AdvanceAdd(s, 1, 1);
    AdvanceOne(Next(s));
  }
}
