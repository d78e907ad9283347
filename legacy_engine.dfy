/**
 * The legacy engine of src/engines/mod.rs: a four-kind weighted choice
 * (SELECT, INSERT, UPDATE, VACUUM) and a run loop that hands statements
 * starting with `SELECT` to the driver's `query` and all others to `exec`.
 * The per-kind generator it calls is an oracle; the driver's results are
 * only logged, so the run is modelled as the trace of driver calls.
 */
module LegacyEngine {
  import opened Wrappers
  import opened Rng
  import opened Config
  import opened Text
  import opened SelectStmtCommon
  import opened LegacyInsert
  import opened SqliteExecutor

  /** The four kinds the legacy engine chooses among. */
  datatype LegacyKind = Select | Insert | Update | Vacuum

  /** The per-kind generator: a statement (or None) and the state after it. */
  type Generator = (LegacyKind, u32) -> (Option<string>, u32)

  /** The four weights the legacy total is taken over, in test order. */
  function LegacyWeights(p: StmtProb): (ws: seq<nat>)
    ensures |ws| == 4 && ws[0] == p.select && ws[1] == p.insert && ws[2] == p.update && ws[3] == p.vacuum
  {
    [p.select, p.insert, p.update, p.vacuum]
  }

  function LegacyTotal(p: StmtProb): nat
  {
    p.select + p.insert + p.update + p.vacuum
  }

  /** The legacy total is the sum of the four weights, so the executor's threshold scan applies to them. */
  lemma LegacyWeightsTotal(p: StmtProb)
    ensures Sum(LegacyWeights(p)) == LegacyTotal(p)
  {
    var ws := LegacyWeights(p);
    forall k | 0 <= k < |ws| {
      SumPrefixStep(ws, k);
    }
    assert ws[..|ws|] == ws;
  }

  /** The `u64` total of the four weights does not overflow. */
  predicate LegacyFits(prob: Option<StmtProb>)
  {
    prob.Some? ==> LegacyTotal(prob.value) < U64_MODULUS
  }

  /** The if-chain on `r = draw % total`. */
  function LegacyChoice(p: StmtProb, r: nat): LegacyKind
  {
    if r < p.select then Select
    else if r < p.select + p.insert then Insert
    else if r < p.select + p.insert + p.update then Update
    else Vacuum
  }

  /** `generate_sql`: the statement and the state after it. */
  function LegacySql(prob: Option<StmtProb>, gen: Generator, s: u32): (string, u32)
    requires LegacyFits(prob)
  {
    match prob
    case None => ("SELECT 1;", s)
    case Some(p) =>
      var total := LegacyTotal(p);
      if total == 0 then ("SELECT 1;", s)
      else
        var (d, s1) := Draw(s);
        var out := gen(LegacyChoice(p, Abs(d) % total), s1);
        (out.0.GetOr("SELECT 1;"), out.1)
  }

  /** The routing test: trimmed of leading whitespace and upper-cased, the text starts with `SELECT`. */
  predicate IsQuery(sql: string)
  {
    StartsWith(ToUpper(TrimStart(sql)), "SELECT")
  }

  /** One call on the driver. */
  datatype Call = Query(sql: string) | Exec(sql: string)

  function Route(sql: string): Call
  {
    if IsQuery(sql) then Query(sql) else Exec(sql)
  }

  /** The driver call of each statement, in order; built from the back, one call per statement. */
  function Routes(sqls: seq<string>): seq<Call>
  {
    if |sqls| == 0 then [] else Routes(sqls[..|sqls| - 1]) + [Route(sqls[|sqls| - 1])]
  }

  /** The statements of `n` iterations of `run`, in order, and the state after them. */
  function Statements(prob: Option<StmtProb>, gen: Generator, n: nat, s: u32): (r: (seq<string>, u32))
    requires LegacyFits(prob)
    ensures |r.0| == n
    decreases n
  {
    if n == 0 then ([], s)
    else
      var g := LegacySql(prob, gen, s);
      var rest := Statements(prob, gen, n - 1, g.1);
      ([g.0] + rest.0, rest.1)
  }

  /** The state after `k` statements. */
  function StateAfter(prob: Option<StmtProb>, gen: Generator, k: nat, s: u32): u32
    requires LegacyFits(prob)
    decreases k
  {
    if k == 0 then s else StateAfter(prob, gen, k - 1, LegacySql(prob, gen, s).1)
  }

  /** `Engine`: the generator, the run count and the weights. */
  class Engine {
    var rng: LcgRng
    var runCount: nat
    var stmtProb: Option<StmtProb>

    /** `with_driver_kind`, for a driver that opens: the generator seeded from `seed`. */
    constructor (seed: u64, runCount: nat, profile: Profile)
      ensures fresh(rng) && rng.next == seed % MODULUS
      ensures this.runCount == runCount && this.stmtProb == profile.stmtProb
    {
      rng := new LcgRng(seed % MODULUS);
      this.runCount := runCount;
      this.stmtProb := profile.stmtProb;
    }

    method GenerateSql(gen: Generator) returns (sql: string)
      requires LegacyFits(stmtProb)
      modifies rng
      ensures (sql, rng.next) == LegacySql(stmtProb, gen, old(rng.next))
    {
      if stmtProb.None? {
        return "SELECT 1;";
      }
      var prob := stmtProb.value;
      var total := prob.select + prob.insert + prob.update + prob.vacuum;
      if total == 0 {
        return "SELECT 1;";
      }
      var x := rng.Rand();
      var r := Abs(x) % total;
      var kind;
      if r < prob.select {
        kind := Select;
      } else if r < prob.select + prob.insert {
        kind := Insert;
      } else if r < prob.select + prob.insert + prob.update {
        kind := Update;
      } else {
        kind := Vacuum;
      }
      var (stmt, s1) := gen(kind, rng.next);
      rng.next := s1;
      sql := stmt.GetOr("SELECT 1;");
    }

    /**
     * `run`: `run_count` statements, each handed to the driver call its text
     * selects; a failed call does not stop the loop.
     */
    method Run(gen: Generator) returns (calls: seq<Call>)
      requires LegacyFits(stmtProb)
      modifies rng
      ensures var st := Statements(stmtProb, gen, runCount, old(rng.next));
        calls == Routes(st.0) && rng.next == st.1
    {
      ghost var prob, count := stmtProb, runCount;
      ghost var goal := Statements(prob, gen, count, rng.next);
      ghost var sqls: seq<string> := [];
      calls := [];
      var i := 0;
      while i < runCount
        invariant 0 <= i <= count && prob == stmtProb && count == runCount
        invariant goal.0 == sqls + Statements(prob, gen, count - i, rng.next).0
        invariant goal.1 == Statements(prob, gen, count - i, rng.next).1
        invariant calls == Routes(sqls)
      {
        ghost var s0, left := rng.next, count - i;
        var sql := GenerateSql(gen);
        StatementsStep(sqls, prob, gen, left, s0);
        assert count - (i + 1) == left - 1;
        var call := Route(sql);
        RoutesSnoc(sqls, sql);
        sqls := sqls + [sql];
        calls := calls + [call];
        i := i + 1;
      }
      assert Statements(prob, gen, 0, rng.next).0 == [];
      assert sqls == goal.0;
    }
  }

  /** Routing one more statement appends its call. */
  lemma RoutesSnoc(sqls: seq<string>, sql: string)
    ensures Routes(sqls + [sql]) == Routes(sqls) + [Route(sql)]
  {
    assert (sqls + [sql])[..|sqls|] == sqls;
  }

  /** One call per statement, and call `k` is the route of statement `k`. */
  lemma {:induction false} RoutesAt(sqls: seq<string>)
    ensures |Routes(sqls)| == |sqls|
    ensures forall k :: 0 <= k < |sqls| ==> Routes(sqls)[k] == Route(sqls[k])
    decreases |sqls|
  {
    if |sqls| > 0 {
      var init := sqls[..|sqls| - 1];
      RoutesAt(init);
      assert forall k :: 0 <= k < |init| ==> sqls[k] == init[k];
    }
  }

  /** One step of `Statements`: the first statement, then the rest from the state after it. */
  lemma StatementsStep(done: seq<string>, prob: Option<StmtProb>, gen: Generator, n: nat, s: u32)
    requires LegacyFits(prob) && n > 0
    ensures var g := LegacySql(prob, gen, s);
      && (done + [g.0]) + Statements(prob, gen, n - 1, g.1).0 == done + Statements(prob, gen, n, s).0
      && Statements(prob, gen, n - 1, g.1).1 == Statements(prob, gen, n, s).1
  {
  }

  /**
   * The four intervals of the if-chain: SELECT below S, INSERT in
   * [S, S+I), UPDATE in [S+I, S+I+U) and VACUUM from S+I+U on.
   */
  lemma LegacyChoiceIntervals(p: StmtProb, r: nat)
    ensures LegacyChoice(p, r) == Select <==> r < p.select
    ensures LegacyChoice(p, r) == Insert <==> p.select <= r < p.select + p.insert
    ensures LegacyChoice(p, r) == Update <==> p.select + p.insert <= r < p.select + p.insert + p.update
    ensures LegacyChoice(p, r) == Vacuum <==> p.select + p.insert + p.update <= r
  {
  }

  /**
   * The if-chain is the cumulative-weight search of the executor over the
   * four weights: below the total it stops at the same kind, and so a kind
   * whose weight is zero is never chosen.
   */
  lemma LegacyChoiceIsFirstAbove(p: StmtProb, r: nat)
    requires r < LegacyTotal(p)
    ensures var k := FirstAbove(LegacyWeights(p), r, 0);
      k < 4 && LegacyChoice(p, r) == [Select, Insert, Update, Vacuum][k]
    ensures LegacyChoice(p, r) == Select ==> p.select > 0
    ensures LegacyChoice(p, r) == Insert ==> p.insert > 0
    ensures LegacyChoice(p, r) == Update ==> p.update > 0
    ensures LegacyChoice(p, r) == Vacuum ==> p.vacuum > 0
  {
    var ws := LegacyWeights(p);
    assert ws[..0] == [] && ws[..1] == [p.select] && ws[..2] == [p.select, p.insert];
    assert ws[..3] == [p.select, p.insert, p.update] && ws[..4] == ws;
    assert ws[..1][..0] == ws[..0] && ws[..2][..1] == ws[..1];
    assert ws[..3][..2] == ws[..2] && ws[..4][..3] == ws[..3];
    assert Sum(ws[..1]) == p.select;
    assert Sum(ws[..2]) == p.select + p.insert;
    assert Sum(ws[..3]) == p.select + p.insert + p.update;
    assert Sum(ws[..4]) == LegacyTotal(p);
    FirstMatch(ws, r);
  }

  /** With no weights, or a zero total, the statement is `SELECT 1;` and nothing is drawn. */
  lemma LegacySqlDefault(prob: Option<StmtProb>, gen: Generator, s: u32)
    requires LegacyFits(prob)
    requires prob.None? || LegacyTotal(prob.value) == 0
    ensures LegacySql(prob, gen, s) == ("SELECT 1;", s)
  {
  }

  /**
   * Otherwise one draw picks the kind from `draw % total`, the generator
   * runs from the state after it, and a generator returning None is
   * replaced by `SELECT 1;`.
   */
  lemma LegacySqlPick(p: StmtProb, gen: Generator, s: u32)
    requires LegacyTotal(p) > 0 && LegacyFits(Some(p))
    ensures var kind := LegacyChoice(p, Output(Next(s)) % LegacyTotal(p));
      var out := gen(kind, Next(s));
      && LegacySql(Some(p), gen, s).1 == out.1
      && (out.0.None? ==> LegacySql(Some(p), gen, s).0 == "SELECT 1;")
      && (out.0.Some? ==> LegacySql(Some(p), gen, s).0 == out.0.value)
  {
    AbsOfDraw(s);
  }

  /** Only SELECT, INSERT, UPDATE and VACUUM weigh: profiles that agree on those give the same statement. */
  lemma LegacyIgnoresOtherWeights(p: StmtProb, q: StmtProb, gen: Generator, s: u32)
    requires p.select == q.select && p.insert == q.insert && p.update == q.update && p.vacuum == q.vacuum
    requires LegacyFits(Some(p))
    ensures LegacyFits(Some(q)) && LegacySql(Some(p), gen, s) == LegacySql(Some(q), gen, s)
  {
  }

  /**
   * Statement `k` of a run is the one generated from the state after the
   * first `k`, and the run ends in the state after all of them.
   */
  lemma {:induction false} StatementsAt(prob: Option<StmtProb>, gen: Generator, n: nat, s: u32)
    requires LegacyFits(prob)
    ensures Statements(prob, gen, n, s).1 == StateAfter(prob, gen, n, s)
    ensures forall k :: 0 <= k < n ==>
      Statements(prob, gen, n, s).0[k] == LegacySql(prob, gen, StateAfter(prob, gen, k, s)).0
    decreases n
  {
    if n > 0 {
      var g := LegacySql(prob, gen, s);
      StatementsAt(prob, gen, n - 1, g.1);
      StateAfterStep(prob, gen, n, s);
      forall k | 1 <= k < n
        ensures StateAfter(prob, gen, k, s) == StateAfter(prob, gen, k - 1, g.1)
      {
        StateAfterStep(prob, gen, k, s);
      }
    }
  }

  /**
   * `run` makes exactly `run_count` driver calls, errors or not; call `k`
   * carries the statement generated from the state after the first `k`,
   * and it is a `query` exactly when that statement tests as one.
   */
  lemma RunCalls(prob: Option<StmtProb>, gen: Generator, n: nat, s: u32)
    requires LegacyFits(prob)
    ensures var calls := Routes(Statements(prob, gen, n, s).0);
      && |calls| == n
      && forall k :: 0 <= k < n ==>
           var sql := LegacySql(prob, gen, StateAfter(prob, gen, k, s)).0;
           calls[k].sql == sql && (calls[k].Query? <==> IsQuery(sql))
  {
    StatementsAt(prob, gen, n, s);
    RoutesAt(Statements(prob, gen, n, s).0);
  }

  lemma {:induction false} StateAfterStep(prob: Option<StmtProb>, gen: Generator, n: nat, s: u32)
    requires LegacyFits(prob) && n > 0
    ensures StateAfter(prob, gen, n, s) == StateAfter(prob, gen, n - 1, LegacySql(prob, gen, s).1)
  {
  }

  /** A text that does not start with whitespace is a query exactly when its first six characters upper-case to `SELECT`. */
  lemma RouteByPrefix(sql: string)
    requires |sql| > 0 && !IsWhitespace(sql[0])
    ensures IsQuery(sql) <==> |sql| >= 6 && ToUpper(sql[..6]) == "SELECT"
  {
    assert TrimStart(sql) == sql;
    if |sql| >= 6 {
      assert ToUpper(sql)[..6] == ToUpper(sql[..6]);
    }
  }

  /** Every statement of the common SELECT builder goes to `query`. */
  lemma SelectTextRoutesToQuery(table: string, cols: seq<string>)
    ensures Route(SelectText(table, cols)) == Query(SelectText(table, cols))
  {
    var sql := SelectText(table, cols);
    assert sql[..6] == "SELECT";
    RouteByPrefix(sql);
  }

  /** Every legacy INSERT goes to `exec`. */
  lemma LegacyInsertRoutesToExec(table: string, names: seq<string>, vals: seq<string>)
    ensures Route(LegacyInsertText(table, names, vals)) == Exec(LegacyInsertText(table, names, vals))
  {
    var sql := LegacyInsertText(table, names, vals);
    assert sql[0] == 'I';
    RouteByPrefix(sql);
    if |sql| >= 6 {
      assert ToUpper(sql[..6])[0] == 'I';
    }
  }

  /** The fallback statement goes to `query`. */
  lemma FallbackRoutesToQuery()
    ensures Route("SELECT 1;") == Query("SELECT 1;")
  {
    assert "SELECT 1;"[..6] == "SELECT";
    RouteByPrefix("SELECT 1;");
  }

  /** Leading whitespace is skipped before the test. */
  lemma {:induction false} LeadingWhitespaceIgnored(w: string, sql: string)
    requires forall i :: 0 <= i < |w| ==> IsWhitespace(w[i])
    ensures TrimStart(w + sql) == TrimStart(sql)
    ensures IsQuery(w + sql) == IsQuery(sql)
    decreases |w|
  {
    if |w| > 0 {
      assert (w + sql)[0] == w[0];
      assert (w + sql)[1..] == w[1..] + sql;
      LeadingWhitespaceIgnored(w[1..], sql);
    } else {
      assert w + sql == sql;
    }
  }

  /** A text that starts with `select` in any mix of case is a query. */
  lemma SelectPrefixIsQuery(t: string)
    requires |t| >= 6 && ToUpper(t[..6]) == "SELECT"
    ensures IsQuery(t)
  {
    assert !IsWhitespace(t[0]) by {
      assert UpperChar(t[0]) == ToUpper(t[..6])[0] == 'S';
    }
    RouteByPrefix(t);
  }

  /** A lower-case `select` followed by anything is a query. */
  lemma LowerSelectIsQuery(rest: string)
    ensures IsQuery("select" + rest)
  {
    var t := "select" + rest;
    assert t[..6] == "select";
    assert ToUpper("select") == "SELECT";
    SelectPrefixIsQuery(t);
  }

  /** The test ignores leading whitespace and case: a lower-case `select` after spaces goes to `query`. */
  lemma LowerCaseRoutesToQuery()
    ensures Route("  select * FROM t;") == Query("  select * FROM t;")
  {
    var rest := " * FROM t;";
    assert "  select * FROM t;" == "  " + ("select" + rest);
    assert IsWhitespace("  "[0]) && IsWhitespace("  "[1]);
    LeadingWhitespaceIgnored("  ", "select" + rest);
    LowerSelectIsQuery(rest);
  }

  /** VACUUM and the empty text go to `exec`. */
  lemma OtherTextRoutesToExec()
    ensures Route("VACUUM;") == Exec("VACUUM;")
    ensures Route("") == Exec("")
  {
    assert "VACUUM;"[..6] == "VACUUM";
    RouteByPrefix("VACUUM;");
    assert ToUpper("VACUUM;"[..6])[0] == 'V';
  }
}
