/**
 * `get_stmt_by_seed` (executor/generators/sqlite/mod.rs): the per-kind
 * dispatch of the SQLite executor. The database is replaced by a schema
 * snapshot; the VACUUM and CREATE TRIGGER generators, whose sources are not
 * part of this model, are oracles.
 */
module SqliteGenerators {
  import opened Wrappers
  import opened Rng
  import opened Schema
  import opened SelectStmtCommon
  import opened InsertStmtCommon
  import opened UpdateStmtCommon
  import opened DeleteStmtCommon
  import opened PragmaStmtCommon

  /** The statement kinds the executor selects among. */
  datatype StmtKind =
    | Select | Insert | Update | Delete | Vacuum | Pragma | CreateTrigger | DropTrigger

  /**
   * What the connection would report: `schema::get` (None when the read
   * fails) and `schema::get_tables_with_columns`, as `(name, columns)` pairs.
   */
  datatype Snapshot = Snapshot(tableInfos: Option<seq<TableInfo>>, tablesWithColumns: seq<(string, seq<Column>)>)

  /** The generators whose sources are not part of this model. */
  datatype Oracles = Oracles(
    vacuum: Option<string>,
    createTrigger: (seq<TriggerTable>, u32) -> (Option<string>, u32))

  /** The wrapped tables the INSERT, UPDATE and DELETE generators receive. */
  function Wrapped(pairs: seq<(string, seq<Column>)>): (ts: seq<Table>)
    ensures |ts| == |pairs|
    ensures forall i :: 0 <= i < |pairs| ==> ts[i].name == pairs[i].0 && ts[i].columns == pairs[i].1
  {
    if |pairs| == 0 then [] else [Table(pairs[0].0, pairs[0].1)] + Wrapped(pairs[1..])
  }

  /** `columns.iter().any(|(col, _)| col == "id")`. */
  function HasIdColumn(cols: seq<Column>): (b: bool)
    ensures b <==> exists i :: 0 <= i < |cols| && cols[i].name == "id"
  {
    if |cols| == 0 then false
    else if cols[0].name == "id" then true
    else
      assert forall i :: 1 <= i < |cols| ==> cols[i] == cols[1..][i - 1];
      HasIdColumn(cols[1..])
  }

  /** The tables the CREATE TRIGGER generator receives. */
  function TriggerWrapped(pairs: seq<(string, seq<Column>)>): (ts: seq<TriggerTable>)
    ensures |ts| == |pairs|
    ensures forall i :: 0 <= i < |pairs| ==>
      ts[i].name == pairs[i].0 && ts[i].columns == pairs[i].1 && ts[i].hasPrimaryKey == HasIdColumn(pairs[i].1)
  {
    if |pairs| == 0 then []
    else [TriggerTable(pairs[0].0, pairs[0].1, HasIdColumn(pairs[0].1))] + TriggerWrapped(pairs[1..])
  }

  /** The statement for a kind, and the generator state after it. */
  function StmtBySeed(snap: Snapshot, kind: StmtKind, oracles: Oracles, s: u32): (Option<string>, u32)
  {
    match kind
    case Select =>
      if snap.tableInfos.None? || |snap.tableInfos.value| == 0 then (None, s)
      else SelectStmt(snap.tableInfos.value, s)
    case Insert => InsertStmt(Wrapped(snap.tablesWithColumns), s)
    case Update => UpdateStmt(Wrapped(snap.tablesWithColumns), s)
    case Delete => DeleteStmt(Wrapped(snap.tablesWithColumns), s)
    case Vacuum => (oracles.vacuum, s)
    case Pragma => PragmaStmt(s)
    case CreateTrigger => oracles.createTrigger(TriggerWrapped(snap.tablesWithColumns), s)
    case DropTrigger => (None, s)
  }

  method WrapTables(pairs: seq<(string, seq<Column>)>) returns (wrapped: seq<Table>)
    ensures wrapped == Wrapped(pairs)
  {
    wrapped := [];
    for i := 0 to |pairs|
      invariant wrapped + Wrapped(pairs[i..]) == Wrapped(pairs)
    {
      WrappedStep(wrapped, pairs, i);
      wrapped := wrapped + [Table(pairs[i].0, pairs[i].1)];
    }
    assert pairs[|pairs|..] == [];
  }

  lemma WrappedStep(done: seq<Table>, pairs: seq<(string, seq<Column>)>, i: nat)
    requires i < |pairs|
    ensures (done + [Table(pairs[i].0, pairs[i].1)]) + Wrapped(pairs[i + 1..]) == done + Wrapped(pairs[i..])
  {
    assert pairs[i..][1..] == pairs[i + 1..];
  }

  method WrapTriggerTables(pairs: seq<(string, seq<Column>)>) returns (wrapped: seq<TriggerTable>)
    ensures wrapped == TriggerWrapped(pairs)
  {
    wrapped := [];
    for i := 0 to |pairs|
      invariant wrapped + TriggerWrapped(pairs[i..]) == TriggerWrapped(pairs)
    {
      TriggerWrappedStep(wrapped, pairs, i);
      var (name, columns) := pairs[i];
      var hasPrimaryKey := HasIdColumn(columns);
      wrapped := wrapped + [TriggerTable(name, columns, hasPrimaryKey)];
    }
    assert pairs[|pairs|..] == [];
  }

  lemma TriggerWrappedStep(done: seq<TriggerTable>, pairs: seq<(string, seq<Column>)>, i: nat)
    requires i < |pairs|
    ensures (done + [TriggerTable(pairs[i].0, pairs[i].1, HasIdColumn(pairs[i].1))]) + TriggerWrapped(pairs[i + 1..])
      == done + TriggerWrapped(pairs[i..])
  {
    assert pairs[i..][1..] == pairs[i + 1..];
  }

  method GetStmtBySeed(snap: Snapshot, rng: LcgRng, kind: StmtKind, oracles: Oracles) returns (stmt: Option<string>)
    modifies rng
    ensures (stmt, rng.next) == StmtBySeed(snap, kind, oracles, old(rng.next))
  {
    match kind {
      case Select =>
        if snap.tableInfos.None? || |snap.tableInfos.value| == 0 {
          return None;
        }
        stmt := GenSelectStmt(snap.tableInfos.value, rng);
      case Insert =>
        var tables := WrapTables(snap.tablesWithColumns);
        stmt := GenInsertStmt(tables, rng);
      case Update =>
        var tables := WrapTables(snap.tablesWithColumns);
        stmt := GenUpdateStmt(tables, rng);
      case Delete =>
        var tables := WrapTables(snap.tablesWithColumns);
        var (r, s1) := DeleteStmt(tables, rng.next);
        rng.next := s1;
        stmt := r;
      case Vacuum =>
        stmt := oracles.vacuum;
      case Pragma =>
        var (r, s1) := PragmaStmt(rng.next);
        rng.next := s1;
        stmt := r;
      case CreateTrigger =>
        var tables := WrapTriggerTables(snap.tablesWithColumns);
        var (r, s1) := oracles.createTrigger(tables, rng.next);
        rng.next := s1;
        stmt := r;
      case DropTrigger =>
        stmt := None;
    }
  }

  /** SELECT yields nothing, and draws nothing, when the schema read fails or finds no table. */
  lemma SelectDispatchNone(snap: Snapshot, oracles: Oracles, s: u32)
    requires snap.tableInfos.None? || snap.tableInfos.value == []
    ensures StmtBySeed(snap, Select, oracles, s) == (None, s)
  {
  }

  /** Otherwise SELECT is the common SELECT generator over the tables read. */
  lemma SelectDispatch(snap: Snapshot, oracles: Oracles, s: u32)
    requires snap.tableInfos.Some?
    ensures StmtBySeed(snap, Select, oracles, s) == SelectStmt(snap.tableInfos.value, s)
  {
    if |snap.tableInfos.value| == 0 {
      SelectNone(snap.tableInfos.value, s);
    }
  }

  /**
   * VACUUM and PRAGMA never read the schema: any two snapshots give the same
   * statement and state; PRAGMA always gives a statement.
   */
  lemma NoSchemaKinds(a: Snapshot, b: Snapshot, oracles: Oracles, s: u32)
    ensures StmtBySeed(a, Vacuum, oracles, s) == StmtBySeed(b, Vacuum, oracles, s)
    ensures StmtBySeed(a, Pragma, oracles, s) == StmtBySeed(b, Pragma, oracles, s)
    ensures StmtBySeed(a, Pragma, oracles, s).0.Some?
    ensures StmtBySeed(a, Vacuum, oracles, s).1 == s
  {
    PragmaAlwaysSome(s);
  }

  /** DROP TRIGGER has no arm of its own and falls to the catch-all: no statement, no draw. */
  lemma DropTriggerNone(snap: Snapshot, oracles: Oracles, s: u32)
    ensures StmtBySeed(snap, DropTrigger, oracles, s) == (None, s)
  {
  }

  /**
   * INSERT, UPDATE and DELETE depend on the snapshot only through its
   * `(name, columns)` pairs, wrapped unchanged: two snapshots with the same
   * pairs give the same statement and state whatever their SELECT view.
   */
  lemma WrappedKinds(a: Snapshot, b: Snapshot, oracles: Oracles, s: u32)
    requires a.tablesWithColumns == b.tablesWithColumns
    ensures StmtBySeed(a, Insert, oracles, s) == StmtBySeed(b, Insert, oracles, s)
    ensures StmtBySeed(a, Update, oracles, s) == StmtBySeed(b, Update, oracles, s)
    ensures StmtBySeed(a, Delete, oracles, s) == StmtBySeed(b, Delete, oracles, s)
  {
  }
}
