/**
 * executor/engines/mod.rs: the Limbo engine, whose workers share the run
 * count between them and only ever execute `SELECT 1;`, and
 * `with_driver_kind`, which builds either engine from a profile. Workers run
 * one after another here; the driver is an oracle.
 */
module Engines {
  import opened Wrappers
  import opened Rng
  import opened Config
  import opened SqliteExecutor

  /** `thread_per_exec` when the profile leaves it out. */
  const DEFAULT_THREAD_PER_EXEC: nat := 5

  /** The run count of worker `n` out of `threads`: the quotient, plus one for the first `run_count % threads`. */
  function ThreadRunCount(runCount: nat, threads: nat, n: nat): nat
    requires threads > 0
  {
    if n < runCount % threads then runCount / threads + 1 else runCount / threads
  }

  /** The run counts of workers `n` to `threads`, added up. */
  function SplitTotal(runCount: nat, threads: nat, n: nat): nat
    requires 0 < threads && n <= threads
    decreases threads - n
  {
    if n == threads then 0 else ThreadRunCount(runCount, threads, n) + SplitTotal(runCount, threads, n + 1)
  }

  /** Workers `n` to `threads` split what the last `threads - n` workers run: the extra ones go first. */
  lemma {:induction false} SplitTotalFrom(runCount: nat, threads: nat, n: nat)
    requires 0 < threads && n <= threads
    ensures SplitTotal(runCount, threads, n) ==
      (threads - n) * (runCount / threads) + (if n < runCount % threads then runCount % threads - n else 0)
    decreases threads - n
  {
    if n < threads {
      SplitTotalFrom(runCount, threads, n + 1);
      MulStep(threads - n, runCount / threads);
    }
  }

  /**
   * The split runs every statement exactly once: the per-worker counts add
   * up to `run_count`; any two differ by at most one, and none is below the
   * quotient.
   */
  lemma SplitProperties(runCount: nat, threads: nat)
    requires threads > 0
    ensures SplitTotal(runCount, threads, 0) == runCount
    ensures forall a, b :: 0 <= a < threads && 0 <= b < threads ==>
      ThreadRunCount(runCount, threads, a) <= ThreadRunCount(runCount, threads, b) + 1
    ensures forall a :: 0 <= a < threads ==> ThreadRunCount(runCount, threads, a) >= runCount / threads
  {
    SplitTotalFrom(runCount, threads, 0);
  }

  /** Statements `i` to `count` of Limbo worker `n`: `(success, failed_new)` after them. */
  function LimboLoop(exec: (nat, nat, string) -> ExecResult, n: nat, i: nat, count: nat, success: nat, failedNew: nat)
    : (nat, nat)
    requires i <= count
    decreases count - i
  {
    if i == count then (success, failedNew)
    else if exec(n, i, "SELECT 1;").Ok? then LimboLoop(exec, n, i + 1, count, success + 1, failedNew)
    else LimboLoop(exec, n, i + 1, count, success, failedNew + 1)
  }

  /** Each statement moves exactly one of the two counters. */
  lemma {:induction false} LimboLoopTotal(exec: (nat, nat, string) -> ExecResult, n: nat, i: nat, count: nat, success: nat, failedNew: nat)
    requires i <= count
    ensures LimboLoop(exec, n, i, count, success, failedNew).0 + LimboLoop(exec, n, i, count, success, failedNew).1
      == success + failedNew + (count - i)
    decreases count - i
  {
    if i < count {
      if exec(n, i, "SELECT 1;").Ok? {
        LimboLoopTotal(exec, n, i + 1, count, success + 1, failedNew);
      } else {
        LimboLoopTotal(exec, n, i + 1, count, success, failedNew + 1);
      }
    }
  }

  /** Workers `n` to `threads`, each on its share of the run count, added into the counters. */
  function LimboRunFrom(exec: (nat, nat, string) -> ExecResult, runCount: nat, threads: nat, n: nat, success: nat, failedNew: nat)
    : (nat, nat)
    requires 0 < threads && n <= threads
    decreases threads - n
  {
    if n == threads then (success, failedNew)
    else
      var w := LimboLoop(exec, n, 0, ThreadRunCount(runCount, threads, n), 0, 0);
      LimboRunFrom(exec, runCount, threads, n + 1, success + w.0, failedNew + w.1)
  }

  /** Over all workers the two counters add up to the statements the split hands out. */
  lemma {:induction false} LimboRunTotal(exec: (nat, nat, string) -> ExecResult, runCount: nat, threads: nat, n: nat, success: nat, failedNew: nat)
    requires 0 < threads && n <= threads
    ensures LimboRunFrom(exec, runCount, threads, n, success, failedNew).0
      + LimboRunFrom(exec, runCount, threads, n, success, failedNew).1
      == success + failedNew + SplitTotal(runCount, threads, n)
    decreases threads - n
  {
    if n < threads {
      var c := ThreadRunCount(runCount, threads, n);
      var w := LimboLoop(exec, n, 0, c, 0, 0);
      LimboLoopTotal(exec, n, 0, c, 0, 0);
      LimboRunTotal(exec, runCount, threads, n + 1, success + w.0, failedNew + w.1);
    }
  }

  /** Every statement of a Limbo run is executed once: success and failure add up to `run_count`. */
  lemma LimboRunCounts(exec: (nat, nat, string) -> ExecResult, runCount: nat, threads: nat)
    requires threads > 0
    ensures LimboRunFrom(exec, runCount, threads, 0, 0, 0).0 + LimboRunFrom(exec, runCount, threads, 0, 0, 0).1 == runCount
  {
    LimboRunTotal(exec, runCount, threads, 0, 0, 0);
    SplitProperties(runCount, threads);
  }

  /** `LimboEngine`: the same fields as the SQLite engine; only the run count and the thread count are used. */
  class LimboEngine {
    var rng: LcgRng
    var seed: u64
    var runCount: nat
    var threadPerExec: nat
    var stmtProb: Option<StmtProb>

    constructor (seed: u64, runCount: nat, threadPerExec: nat, stmtProb: Option<StmtProb>)
      ensures fresh(rng) && rng.next == seed % MODULUS
      ensures this.seed == seed && this.runCount == runCount && this.threadPerExec == threadPerExec
      ensures this.stmtProb == stmtProb
    {
      rng := new LcgRng(seed % MODULUS);
      this.seed := seed;
      this.runCount := runCount;
      this.threadPerExec := threadPerExec;
      this.stmtProb := stmtProb;
    }

    /**
     * `run`: worker `n` runs `SELECT 1;` `ThreadRunCount` times; an `Ok`
     * counts a success and any error a new failure. The source divides by
     * `thread_per_exec`, so it must be positive.
     */
    method Run(exec: (nat, nat, string) -> ExecResult) returns (success: nat, failedNew: nat)
      requires threadPerExec > 0
      ensures (success, failedNew) == LimboRunFrom(exec, runCount, threadPerExec, 0, 0, 0)
    {
      success, failedNew := 0, 0;
      var basePerThread := runCount / threadPerExec;
      var extra := runCount % threadPerExec;
      for n := 0 to threadPerExec
        invariant LimboRunFrom(exec, runCount, threadPerExec, n, success, failedNew)
          == LimboRunFrom(exec, runCount, threadPerExec, 0, 0, 0)
      {
        var threadRunCount := if n < extra then basePerThread + 1 else basePerThread;
        ghost var s0, f0 := success, failedNew;
        for i := 0 to threadRunCount
          invariant success >= s0 && failedNew >= f0
          invariant LimboLoop(exec, n, i, threadRunCount, success - s0, failedNew - f0)
            == LimboLoop(exec, n, 0, threadRunCount, 0, 0)
        {
          var sql := "SELECT 1;";
          if exec(n, i, sql).Ok? {
            success := success + 1;
          } else {
            failedNew := failedNew + 1;
          }
        }
      }
    }

    /** `generate_sql`: always `SELECT 1;`, and the generator is not drawn from. */
    method GenerateSql() returns (sql: string)
      ensures sql == "SELECT 1;"
    {
      sql := "SELECT 1;";
    }
  }

  datatype DriverKind = SqliteInMem | LimboInMem

  /** The boxed engine `with_driver_kind` returns. */
  datatype EngineBox = SqliteBox(sqlite: SqliteEngine) | LimboBox(limbo: LimboEngine)

  /**
   * `with_driver_kind`: an engine of the requested kind whose generator is
   * seeded from `seed`, with `thread_per_exec` defaulting to 5 and the
   * profile's weights.
   */
  method WithDriverKind(seed: u64, kind: DriverKind, runCount: nat, profile: Profile) returns (engine: EngineBox)
    ensures kind == SqliteInMem <==> engine.SqliteBox?
    ensures engine.SqliteBox? ==>
      && fresh(engine.sqlite) && engine.sqlite.seed == seed && engine.sqlite.runCount == runCount
      && engine.sqlite.threadPerExec == profile.threadPerExec.GetOr(DEFAULT_THREAD_PER_EXEC)
      && engine.sqlite.stmtProb == profile.stmtProb
      && engine.sqlite.rng.next == seed % MODULUS
    ensures engine.LimboBox? ==>
      && fresh(engine.limbo) && engine.limbo.seed == seed && engine.limbo.runCount == runCount
      && engine.limbo.threadPerExec == profile.threadPerExec.GetOr(DEFAULT_THREAD_PER_EXEC)
      && engine.limbo.stmtProb == profile.stmtProb
      && engine.limbo.rng.next == seed % MODULUS
  {
    var threadPerExec := profile.threadPerExec.GetOr(DEFAULT_THREAD_PER_EXEC);
    match kind {
      case SqliteInMem =>
        var e := new SqliteEngine(seed, runCount, threadPerExec, profile.stmtProb);
        engine := SqliteBox(e);
      case LimboInMem =>
        var e := new LimboEngine(seed, runCount, threadPerExec, profile.stmtProb);
        engine := LimboBox(e);
    }
  }
}
