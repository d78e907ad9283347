/**
 * executor/engines/sqlite_engine.rs: the weighted choice of a statement
 * kind (`generate_sql_by_prob`), the classification of each execution
 * outcome, and the per-worker loop of `SqliteEngine::run` with its counters
 * and per-kind histogram. The workers, which the source runs on threads, run
 * one after another here; the database connection is an oracle.
 */
module SqliteExecutor {
  import opened Wrappers
  import opened Rng
  import opened Config
  import opened SqliteGenerators

  /** The order in which the cumulative weights are walked. */
  const KIND_ORDER: seq<StmtKind> :=
    [Select, Insert, Update, Delete, Vacuum, Pragma, CreateTrigger, DropTrigger]

  /** The weight table, in `KIND_ORDER`; DATE_FUNC has no entry. */
  function Weights(prob: StmtProb): (ws: seq<nat>)
    ensures |ws| == |KIND_ORDER| == 8
    ensures ws[0] == prob.select && ws[1] == prob.insert && ws[2] == prob.update && ws[3] == prob.delete
    ensures ws[4] == prob.vacuum && ws[5] == prob.pragma && ws[6] == prob.createTrigger && ws[7] == prob.dropTrigger
  {
    [prob.select, prob.insert, prob.update, prob.delete, prob.vacuum, prob.pragma, prob.createTrigger, prob.dropTrigger]
  }

  /** The sum of a weight list, taken from the back so that `Sum(ws[..i+1]) == Sum(ws[..i]) + ws[i]`. */
  function Sum(ws: seq<nat>): nat
  {
    if |ws| == 0 then 0 else Sum(ws[..|ws| - 1]) + ws[|ws| - 1]
  }

  /** Extending a prefix by one weight adds that weight. */
  lemma SumPrefixStep(ws: seq<nat>, k: nat)
    requires k < |ws|
    ensures Sum(ws[..k + 1]) == Sum(ws[..k]) + ws[k]
  {
    assert ws[..k + 1][..k] == ws[..k];
  }

  /** The scan's total is the source's `total`: the eight weights added up, DATE_FUNC not among them. */
  lemma WeightsTotal(prob: StmtProb)
    ensures Sum(Weights(prob)) == prob.select + prob.insert + prob.update + prob.delete
      + prob.vacuum + prob.pragma + prob.createTrigger + prob.dropTrigger
  {
    var ws := Weights(prob);
    forall k | 0 <= k < |ws| {
      SumPrefixStep(ws, k);
    }
    assert ws[..|ws|] == ws;
  }

  /** The `u64` sum of the weights does not overflow. */
  predicate WeightsFit(prob: StmtProb)
  {
    Sum(Weights(prob)) < U64_MODULUS
  }

  /**
   * The index the loop stops at, searching from index `i`: the first `k`
   * whose cumulative weight `Sum(ws[..k+1])` exceeds `r`, or `|ws|` if none.
   */
  function FirstAbove(ws: seq<nat>, r: nat, i: nat): (k: nat)
    requires i <= |ws|
    ensures i <= k <= |ws|
    decreases |ws| - i
  {
    if i == |ws| then |ws|
    else if r < Sum(ws[..i + 1]) then i
    else FirstAbove(ws, r, i + 1)
  }

  /** What one call of `generate_sql_by_prob` produces. */
  datatype Generated = Generated(sql: string, counted: Option<StmtKind>, state: u32)

  /**
   * The statement, the kind handed to the generator callback (None when the
   * callback is not called), and the state after it.
   */
  function SqlByProb(prob: StmtProb, snap: Snapshot, oracles: Oracles, s: u32): Generated
  {
    var ws := Weights(prob);
    var total := Sum(ws);
    if total == 0 then Generated("SELECT 1;", None, s)
    else
      var (d, s1) := Draw(s);
      var k := FirstAbove(ws, d % total, 0);
      if k == |ws| then Generated("SELECT 1;", None, s1)
      else
        var (stmt, s2) := StmtBySeed(snap, KIND_ORDER[k], oracles, s1);
        Generated(stmt.GetOr("SELECT 1;"), Some(KIND_ORDER[k]), s2)
  }

  method GenerateSqlByProb(prob: StmtProb, snap: Snapshot, oracles: Oracles, rng: LcgRng)
    returns (sql: string, counted: Option<StmtKind>)
    requires WeightsFit(prob)
    modifies rng
    ensures Generated(sql, counted, rng.next) == SqlByProb(prob, snap, oracles, old(rng.next))
  {
    var ws := Weights(prob);
    var total := Sum(ws);
    if total == 0 {
      return "SELECT 1;", None;
    }
    var v := rng.Rand();
    var r := Abs(v) % total;
    var accum := 0;
    for i := 0 to |ws|
      invariant accum == Sum(ws[..i])
      invariant FirstAbove(ws, r, i) == FirstAbove(ws, r, 0)
    {
      assert ws[..i + 1][..i] == ws[..i];
      accum := accum + ws[i];
      if r < accum {
        var stmt := GetStmtBySeed(snap, rng, KIND_ORDER[i], oracles);
        return stmt.GetOr("SELECT 1;"), Some(KIND_ORDER[i]);
      }
    }
    return "SELECT 1;", None;
  }

  /** Sums of longer prefixes are no smaller. */
  lemma {:induction false} SumMonotone(ws: seq<nat>, a: nat, b: nat)
    requires a <= b <= |ws|
    ensures Sum(ws[..a]) <= Sum(ws[..b])
    decreases b - a
  {
    if a < b {
      assert ws[..b][..b - 1] == ws[..b - 1];
      SumMonotone(ws, a, b - 1);
    }
  }

  /**
   * The search stops at an index whose cumulative weight before it is at
   * most `r` and whose cumulative weight through it is above `r`; it runs
   * off the end only when the total is at most `r`.
   */
  lemma {:induction false} FirstAboveBounds(ws: seq<nat>, r: nat, i: nat)
    requires i <= |ws| && Sum(ws[..i]) <= r
    ensures Sum(ws[..FirstAbove(ws, r, i)]) <= r
    ensures FirstAbove(ws, r, i) < |ws| ==> r < Sum(ws[..FirstAbove(ws, r, i) + 1])
    ensures FirstAbove(ws, r, i) == |ws| ==> Sum(ws) <= r
    decreases |ws| - i
  {
    if i == |ws| {
      assert ws[..i] == ws;
    } else if r >= Sum(ws[..i + 1]) {
      FirstAboveBounds(ws, r, i + 1);
    }
  }

  /**
   * First-match selection, both directions: the chosen index is `k` exactly
   * when the weights before `k` sum to at most `r` and those through `k`
   * to more than `r`. Such a `k` has a positive weight, and with `r` below
   * the total some `k` is always chosen, so the fallback is never reached.
   */
  lemma FirstMatch(ws: seq<nat>, r: nat)
    requires r < Sum(ws)
    ensures FirstAbove(ws, r, 0) < |ws|
    ensures ws[FirstAbove(ws, r, 0)] > 0
    ensures forall k :: 0 <= k < |ws| ==>
      (FirstAbove(ws, r, 0) == k <==> Sum(ws[..k]) <= r < Sum(ws[..k + 1]))
  {
    var c := FirstAbove(ws, r, 0);
    assert ws[..0] == [];
    FirstAboveBounds(ws, r, 0);
    assert ws[..c + 1][..c] == ws[..c];
    forall k | 0 <= k < |ws| && Sum(ws[..k]) <= r < Sum(ws[..k + 1])
      ensures c == k
    {
      if c < k {
        SumMonotone(ws, c + 1, k);
      } else if k < c {
        SumMonotone(ws, k + 1, c);
      }
    }
  }

  /** With all weights zero the result is `SELECT 1;`, nothing is drawn and no generator is called. */
  lemma ZeroTotal(prob: StmtProb, snap: Snapshot, oracles: Oracles, s: u32)
    requires Sum(Weights(prob)) == 0
    ensures SqlByProb(prob, snap, oracles, s) == Generated("SELECT 1;", None, s)
  {
  }

  /**
   * Otherwise exactly one draw picks `r = draw % total`; the kind handed to
   * the generator is the one at the first index whose cumulative weight
   * exceeds `r`, it has a positive weight, and the statement is that
   * generator's, or `SELECT 1;` when it has none.
   */
  lemma WeightedChoice(prob: StmtProb, snap: Snapshot, oracles: Oracles, s: u32)
    requires Sum(Weights(prob)) > 0
    ensures var ws := Weights(prob);
      var r := Output(Next(s)) % Sum(ws);
      var g := SqlByProb(prob, snap, oracles, s);
      exists k :: 0 <= k < 8 && Sum(ws[..k]) <= r < Sum(ws[..k + 1]) && ws[k] > 0
        && g.counted == Some(KIND_ORDER[k])
        && g.sql == StmtBySeed(snap, KIND_ORDER[k], oracles, Next(s)).0.GetOr("SELECT 1;")
        && g.state == StmtBySeed(snap, KIND_ORDER[k], oracles, Next(s)).1
  {
    var ws := Weights(prob);
    var r := Output(Next(s)) % Sum(ws);
    FirstMatch(ws, r);
    var k := FirstAbove(ws, r, 0);
    assert Sum(ws[..k]) <= r < Sum(ws[..k + 1]);
  }

  /** A kind whose weight is zero is never handed to the generator. */
  lemma ZeroWeightNeverChosen(prob: StmtProb, snap: Snapshot, oracles: Oracles, s: u32, k: nat)
    requires k < 8 && Weights(prob)[k] == 0
    ensures SqlByProb(prob, snap, oracles, s).counted != Some(KIND_ORDER[k])
  {
    var ws := Weights(prob);
    if Sum(ws) > 0 {
      var r := Output(Next(s)) % Sum(ws);
      FirstMatch(ws, r);
      var c := FirstAbove(ws, r, 0);
      assert KIND_ORDER[c] == KIND_ORDER[k] ==> c == k;
    }
  }

  /** The DATE_FUNC weight is never consulted. */
  lemma DateFuncIgnored(prob: StmtProb, w: u64, snap: Snapshot, oracles: Oracles, s: u32)
    ensures SqlByProb(prob.(dateFunc := w), snap, oracles, s) == SqlByProb(prob, snap, oracles, s)
  {
    assert Weights(prob.(dateFunc := w)) == Weights(prob);
  }

  // ---------------------------------------------------------------------
  // Execution outcomes

  /** The rusqlite error codes the classification tells apart. */
  datatype ErrorCode = ConstraintViolation | Unknown | OtherCode(name: string)

  /** An error from `exec`: a rusqlite `SqliteFailure`, another rusqlite error, or a non-rusqlite error. */
  datatype ExecError = SqliteFailure(code: ErrorCode) | OtherRusqliteError | OtherError

  datatype ExecResult = Ok(affected: nat) | Err(error: ExecError)

  datatype Outcome = Success | FailedExpected | FailedNew

  /** `ignorable_errors` */
  const IGNORABLE: seq<ErrorCode> := [ConstraintViolation]

  /** The code of an error; anything other than a `SqliteFailure` is `Unknown`. */
  function CodeOf(e: ExecError): ErrorCode
  {
    match e
    case SqliteFailure(code) => code
    case _ => Unknown
  }

  function Classify(res: ExecResult): Outcome
  {
    match res
    case Ok(_) => Success
    case Err(e) => if CodeOf(e) in IGNORABLE then FailedExpected else FailedNew
  }

  /**
   * A success is exactly an `Ok`; an expected failure exactly a
   * `SqliteFailure` with code ConstraintViolation; every other error,
   * non-SQLite ones included, is new.
   */
  lemma ClassifyCases(res: ExecResult)
    ensures Classify(res) == Success <==> res.Ok?
    ensures Classify(res) == FailedExpected <==> res == Err(SqliteFailure(ConstraintViolation))
    ensures Classify(res) == FailedNew <==> res.Err? && res.error != SqliteFailure(ConstraintViolation)
  {
  }

  // ---------------------------------------------------------------------
  // Counters and the per-kind histogram

  /** The success, expected-failure and new-failure counters. */
  datatype Tally = Tally(success: nat, failedExpected: nat, failedNew: nat)
  {
    function Total(): nat { success + failedExpected + failedNew }
  }

  /** One `fetch_add(1)` on the counter of the outcome. */
  function Record(t: Tally, o: Outcome): (r: Tally)
    ensures r.Total() == t.Total() + 1
  {
    match o
    case Success => t.(success := t.success + 1)
    case FailedExpected => t.(failedExpected := t.failedExpected + 1)
    case FailedNew => t.(failedNew := t.failedNew + 1)
  }

  function AddTally(a: Tally, b: Tally): (r: Tally)
    ensures r.Total() == a.Total() + b.Total()
  {
    Tally(a.success + b.success, a.failedExpected + b.failedExpected, a.failedNew + b.failedNew)
  }

  type Histogram = map<StmtKind, nat>

  /** The count of a kind; an absent key counts zero. */
  function Get(h: Histogram, k: StmtKind): nat
  {
    if k in h then h[k] else 0
  }

  /** `*entry(kind).or_insert(0) += 1` */
  function Bump(h: Histogram, k: StmtKind): (r: Histogram)
    ensures Get(r, k) == Get(h, k) + 1
    ensures forall j :: j != k ==> Get(r, j) == Get(h, j)
  {
    h[k := Get(h, k) + 1]
  }

  /** The key-wise sum `global[k] += local[k]`. */
  function Merge(global: Histogram, local: Histogram): Histogram
  {
    map k | k in global.Keys + local.Keys :: Get(global, k) + Get(local, k)
  }

  /** The sum of a histogram's counts over the kinds `ks`. */
  function CountOver(h: Histogram, ks: seq<StmtKind>): nat
  {
    if ks == [] then 0 else Get(h, ks[0]) + CountOver(h, ks[1..])
  }

  /** The sum of a histogram's counts over all eight kinds. */
  function HistTotal(h: Histogram): nat
  {
    CountOver(h, KIND_ORDER)
  }

  /** The empty histogram counts nothing. */
  lemma {:induction false} CountOverEmpty(ks: seq<StmtKind>)
    ensures CountOver(map[], ks) == 0
    decreases |ks|
  {
    if ks != [] {
      CountOverEmpty(ks[1..]);
    }
  }

  /** Counting `k` adds one for each occurrence of `k` among the kinds summed. */
  lemma {:induction false} CountOverBump(h: Histogram, k: StmtKind, ks: seq<StmtKind>)
    ensures CountOver(Bump(h, k), ks) == CountOver(h, ks) + multiset(ks)[k]
    decreases |ks|
  {
    if ks != [] {
      CountOverBump(h, k, ks[1..]);
      assert ks == [ks[0]] + ks[1..];
    }
  }

  /** Counting one statement adds one to the total. */
  lemma BumpTotal(h: Histogram, k: StmtKind)
    ensures HistTotal(Bump(h, k)) == HistTotal(h) + 1
  {
    CountOverBump(h, k, KIND_ORDER);
    assert multiset(KIND_ORDER)[k] == 1;
  }

  /** Merging adds the totals over any list of kinds. */
  lemma {:induction false} CountOverMerge(global: Histogram, local: Histogram, ks: seq<StmtKind>)
    ensures CountOver(Merge(global, local), ks) == CountOver(global, ks) + CountOver(local, ks)
    decreases |ks|
  {
    if ks != [] {
      MergeGet(global, local, ks[0]);
      CountOverMerge(global, local, ks[1..]);
    }
  }

  /** Counting an optional kind adds one to the total when there is a kind. */
  lemma CountedTotal(h: Histogram, c: Option<StmtKind>)
    requires c.Some?
    ensures HistTotal(if c.Some? then Bump(h, c.value) else h) == HistTotal(h) + 1
  {
    BumpTotal(h, c.value);
  }

  /** Merging adds the local count to the global one, key by key. */
  lemma MergeGet(global: Histogram, local: Histogram, k: StmtKind)
    ensures Get(Merge(global, local), k) == Get(global, k) + Get(local, k)
  {
  }

  /**
   * Merging adds the local count to the global one key by key, leaves keys
   * absent from the local map unchanged, adds its total, and gives the same
   * result whichever of two workers merges first.
   */
  lemma MergeProperties(global: Histogram, a: Histogram, b: Histogram)
    ensures forall k :: Get(Merge(global, a), k) == Get(global, k) + Get(a, k)
    ensures forall k :: k !in a ==> Get(Merge(global, a), k) == Get(global, k)
    ensures HistTotal(Merge(global, a)) == HistTotal(global) + HistTotal(a)
    ensures Merge(Merge(global, a), b) == Merge(Merge(global, b), a)
  {
    forall k
      ensures Get(Merge(global, a), k) == Get(global, k) + Get(a, k)
    {
      MergeGet(global, a, k);
    }
    CountOverMerge(global, a, KIND_ORDER);
    MergeCommutes(global, a, b);
  }

  /** Two workers' merges give the same histogram in either order. */
  lemma MergeCommutes(global: Histogram, a: Histogram, b: Histogram)
    ensures Merge(Merge(global, a), b) == Merge(Merge(global, b), a)
  {
    var ab, ba := Merge(Merge(global, a), b), Merge(Merge(global, b), a);
    assert ab.Keys == ba.Keys;
    forall k | k in ab
      ensures ab[k] == ba[k]
    {
      MergeGet(Merge(global, a), b, k);
      MergeGet(Merge(global, b), a, k);
      MergeGet(global, a, k);
      MergeGet(global, b, k);
    }
  }

  /** The merge loop: each local entry is added into the global map, in whatever order the keys come. */
  method MergeCounts(global: Histogram, local: Histogram) returns (merged: Histogram)
    ensures merged == Merge(global, local)
  {
    merged := global;
    var pending := local.Keys;
    while pending != {}
      invariant pending <= local.Keys
      invariant merged.Keys == global.Keys + (local.Keys - pending)
      invariant forall k :: k in merged ==>
        merged[k] == Get(global, k) + (if k in local.Keys - pending then local[k] else 0)
      decreases pending
    {
      var k :| k in pending;
      merged := merged[k := Get(merged, k) + local[k]];
      pending := pending - {k};
    }
    assert forall k :: k in merged ==> merged[k] == Merge(global, local)[k];
  }

  // ---------------------------------------------------------------------
  // One worker

  /**
   * What a worker's driver reports, by worker and iteration: the schema it
   * would read and the result of executing a statement.
   */
  datatype Env = Env(
    schema: (nat, nat) -> Snapshot,
    exec: (nat, nat, string) -> ExecResult,
    oracles: Oracles)

  /** The weights, when present, have a `u64` sum. */
  predicate ProbFits(prob: Option<StmtProb>)
  {
    prob.Some? ==> WeightsFit(prob.value)
  }

  /** One statement: by the weights when there are any, otherwise `SELECT 1;` with no draw. */
  function Iteration(prob: Option<StmtProb>, snap: Snapshot, oracles: Oracles, s: u32): Generated
  {
    if prob.Some? then SqlByProb(prob.value, snap, oracles, s) else Generated("SELECT 1;", None, s)
  }

  /** What a worker generates from a schema snapshot and a generator state. */
  type Source = (Snapshot, u32) -> Generated

  /** The statement source of a worker with weights `prob`. */
  function SourceOf(prob: Option<StmtProb>, oracles: Oracles): Source
  {
    (snap: Snapshot, s: u32) => Iteration(prob, snap, oracles, s)
  }

  /** Iterations `i` to `count` of worker `n` on source `src`, from state `s`, counters `t` and histogram `h`. */
  function WorkerLoop(src: Source, env: Env, n: nat, i: nat, count: nat, s: u32, t: Tally, h: Histogram)
    : (Tally, Histogram)
    requires i <= count
    decreases count - i
  {
    if i == count then (t, h)
    else
      var g := src(env.schema(n, i), s);
      var h1 := if g.counted.Some? then Bump(h, g.counted.value) else h;
      var t1 := Record(t, Classify(env.exec(n, i, g.sql)));
      WorkerLoop(src, env, n, i + 1, count, g.state, t1, h1)
  }

  /** Worker `n`: a fresh generator seeded with `seed`, zero counters, an empty local histogram. */
  function Worker(src: Source, env: Env, n: nat, seed: u32, count: nat): (Tally, Histogram)
  {
    WorkerLoop(src, env, n, 0, count, seed, Tally(0, 0, 0), map[])
  }

  method RunWorker(prob: Option<StmtProb>, env: Env, n: nat, seed: u32, count: nat)
    returns (t: Tally, local: Histogram)
    requires ProbFits(prob)
    ensures (t, local) == Worker(SourceOf(prob, env.oracles), env, n, seed, count)
  {
    var rng := new LcgRng(seed);
    t, local := Tally(0, 0, 0), map[];
    for i := 0 to count
      invariant WorkerLoop(SourceOf(prob, env.oracles), env, n, i, count, rng.next, t, local)
        == Worker(SourceOf(prob, env.oracles), env, n, seed, count)
    {
      var sql: string, counted: Option<StmtKind>;
      if prob.Some? {
        sql, counted := GenerateSqlByProb(prob.value, env.schema(n, i), env.oracles, rng);
      } else {
        sql, counted := "SELECT 1;", None;
      }
      if counted.Some? {
        local := local[counted.value := Get(local, counted.value) + 1];
      }
      var outcome := Classify(env.exec(n, i, sql));
      match outcome {
        case Success => t := t.(success := t.success + 1);
        case FailedExpected => t := t.(failedExpected := t.failedExpected + 1);
        case FailedNew => t := t.(failedNew := t.failedNew + 1);
      }
    }
  }

  /** Each iteration moves exactly one counter, so the counters grow by the number of iterations. */
  lemma {:induction false} WorkerTotal(src: Source, env: Env, n: nat, i: nat, count: nat, s: u32, t: Tally, h: Histogram)
    requires i <= count
    ensures WorkerLoop(src, env, n, i, count, s, t, h).0.Total() == t.Total() + (count - i)
    decreases count - i
  {
    if i < count {
      var g := src(env.schema(n, i), s);
      var h1 := if g.counted.Some? then Bump(h, g.counted.value) else h;
      var t1 := Record(t, Classify(env.exec(n, i, g.sql)));
      WorkerTotal(src, env, n, i + 1, count, g.state, t1, h1);
    }
  }

  /**
   * What one iteration counts: nothing without weights; some kind when the
   * weights have a positive sum; never a kind of zero weight.
   */
  lemma IterationCounted(prob: Option<StmtProb>, snap: Snapshot, oracles: Oracles, s: u32)
    ensures prob.None? ==> Iteration(prob, snap, oracles, s) == Generated("SELECT 1;", None, s)
    ensures prob.Some? && Sum(Weights(prob.value)) > 0 ==> Iteration(prob, snap, oracles, s).counted.Some?
    ensures forall k :: 0 <= k < 8 && prob.Some? && Weights(prob.value)[k] == 0 ==>
      Iteration(prob, snap, oracles, s).counted != Some(KIND_ORDER[k])
  {
    if prob.Some? {
      if Sum(Weights(prob.value)) > 0 {
        WeightedChoice(prob.value, snap, oracles, s);
      }
      forall k | 0 <= k < 8 && Weights(prob.value)[k] == 0
        ensures Iteration(prob, snap, oracles, s).counted != Some(KIND_ORDER[k])
      {
        ZeroWeightNeverChosen(prob.value, snap, oracles, s, k);
      }
    }
  }

  /** With weights of positive sum the worker's source counts a kind on every call. */
  lemma SourceCountsSome(prob: StmtProb, oracles: Oracles)
    requires Sum(Weights(prob)) > 0
    ensures forall snap, s :: SourceOf(Some(prob), oracles)(snap, s).counted.Some?
  {
    forall snap, s
      ensures SourceOf(Some(prob), oracles)(snap, s).counted.Some?
    {
      WeightedChoice(prob, snap, oracles, s);
    }
  }

  /** Without weights the worker's source is `SELECT 1;`, counts nothing and draws nothing. */
  lemma SourceNoProb(oracles: Oracles)
    ensures forall snap, s :: SourceOf(None, oracles)(snap, s) == Generated("SELECT 1;", None, s)
  {
  }

  /** On a source that never counts, the histogram is untouched. */
  lemma {:induction false} WorkerNoCount(src: Source, env: Env, n: nat, i: nat, count: nat, s: u32, t: Tally, h: Histogram)
    requires i <= count
    requires forall snap, st :: src(snap, st).counted.None?
    ensures WorkerLoop(src, env, n, i, count, s, t, h).1 == h
    decreases count - i
  {
    if i < count {
      var g := src(env.schema(n, i), s);
      WorkerNoCount(src, env, n, i + 1, count, g.state, Record(t, Classify(env.exec(n, i, g.sql))), h);
    }
  }

  /** On a source that counts a kind on every call, every iteration adds exactly one histogram entry. */
  lemma {:induction false} WorkerCountsEvery(src: Source, env: Env, n: nat, i: nat, count: nat, s: u32, t: Tally, h: Histogram)
    requires i <= count
    requires forall snap, st :: src(snap, st).counted.Some?
    ensures HistTotal(WorkerLoop(src, env, n, i, count, s, t, h).1) == HistTotal(h) + (count - i)
    decreases count - i
  {
    if i < count {
      var g := src(env.schema(n, i), s);
      var h1 := if g.counted.Some? then Bump(h, g.counted.value) else h;
      var t1 := Record(t, Classify(env.exec(n, i, g.sql)));
      assert WorkerLoop(src, env, n, i, count, s, t, h) == WorkerLoop(src, env, n, i + 1, count, g.state, t1, h1);
      CountedTotal(h, g.counted);
      WorkerCountsEvery(src, env, n, i + 1, count, g.state, t1, h1);
    }
  }

  /** A kind of zero weight keeps its count. */
  lemma {:induction false} WorkerZeroWeight(prob: StmtProb, env: Env, n: nat, i: nat, count: nat, s: u32, t: Tally, h: Histogram, k: nat)
    requires i <= count && k < 8 && Weights(prob)[k] == 0
    ensures Get(WorkerLoop(SourceOf(Some(prob), env.oracles), env, n, i, count, s, t, h).1, KIND_ORDER[k])
      == Get(h, KIND_ORDER[k])
    decreases count - i
  {
    if i < count {
      var g := SourceOf(Some(prob), env.oracles)(env.schema(n, i), s);
      IterationCounted(Some(prob), env.schema(n, i), env.oracles, s);
      var h1 := if g.counted.Some? then Bump(h, g.counted.value) else h;
      assert Get(h1, KIND_ORDER[k]) == Get(h, KIND_ORDER[k]);
      WorkerZeroWeight(prob, env, n, i + 1, count, g.state, Record(t, Classify(env.exec(n, i, g.sql))), h1, k);
    }
  }

  // ---------------------------------------------------------------------
  // The engine

  /**
   * The seed of worker `n`: `base_seed.wrapping_add(n)` on u64, taken modulo
   * 2^32 for the 32-bit generator of this model.
   */
  function ThreadSeed(base: u64, n: nat): (seed: u32)
    ensures seed == (base + n) % MODULUS
  {
    ((base + n) % U64_MODULUS) % MODULUS
  }

  /** Workers `n` to `threads`, each on the full run count, folded into counters `t` and histogram `h`. */
  function RunFrom(src: Source, env: Env, base: u64, runCount: nat, threads: nat, n: nat, t: Tally, h: Histogram)
    : (Tally, Histogram)
    requires n <= threads
    decreases threads - n
  {
    if n == threads then (t, h)
    else
      var (wt, wh) := Worker(src, env, n, ThreadSeed(base, n), runCount);
      RunFrom(src, env, base, runCount, threads, n + 1, AddTally(t, wt), Merge(h, wh))
  }

  /** One unfolding of the fold over workers. */
  lemma RunStep(src: Source, env: Env, base: u64, runCount: nat, threads: nat, n: nat, t: Tally, h: Histogram)
    requires n < threads
    ensures var w := Worker(src, env, n, ThreadSeed(base, n), runCount);
      RunFrom(src, env, base, runCount, threads, n, t, h)
        == RunFrom(src, env, base, runCount, threads, n + 1, AddTally(t, w.0), Merge(h, w.1))
  {
  }

  lemma MulStep(a: nat, b: nat)
    requires a > 0
    ensures a * b == b + (a - 1) * b
  {
  }

  /** `k` runs of `m` statements each, added one run at a time. */
  function Runs(k: nat, m: nat): nat
  {
    if k == 0 then 0 else m + Runs(k - 1, m)
  }

  lemma {:induction false} RunsMul(k: nat, m: nat)
    ensures Runs(k, m) == k * m
  {
    if k > 0 {
      RunsMul(k - 1, m);
      MulStep(k, m);
    }
  }

  /** Every worker runs the full run count, so each remaining worker adds `runCount` outcomes. */
  lemma {:induction false} RunTally(src: Source, env: Env, base: u64, runCount: nat, threads: nat, n: nat, t: Tally, h: Histogram)
    requires n <= threads
    ensures RunFrom(src, env, base, runCount, threads, n, t, h).0.Total() == t.Total() + Runs(threads - n, runCount)
    decreases threads - n
  {
    if n < threads {
      var w := Worker(src, env, n, ThreadSeed(base, n), runCount);
      RunStep(src, env, base, runCount, threads, n, t, h);
      WorkerTotal(src, env, n, 0, runCount, ThreadSeed(base, n), Tally(0, 0, 0), map[]);
      RunTally(src, env, base, runCount, threads, n + 1, AddTally(t, w.0), Merge(h, w.1));
      assert threads - (n + 1) == threads - n - 1;
    }
  }

  /** A whole run records `threads * runCount` outcomes. */
  lemma RunTallyTotal(src: Source, env: Env, base: u64, runCount: nat, threads: nat)
    ensures RunFrom(src, env, base, runCount, threads, 0, Tally(0, 0, 0), map[]).0.Total() == threads * runCount
  {
    RunTally(src, env, base, runCount, threads, 0, Tally(0, 0, 0), map[]);
    RunsMul(threads, runCount);
  }

  /** On a source that never counts, no worker adds to the histogram. */
  lemma {:induction false} RunNoCount(src: Source, env: Env, base: u64, runCount: nat, threads: nat, n: nat, t: Tally, h: Histogram)
    requires n <= threads
    requires forall snap, st :: src(snap, st).counted.None?
    ensures RunFrom(src, env, base, runCount, threads, n, t, h).1 == h
    decreases threads - n
  {
    if n < threads {
      var w := Worker(src, env, n, ThreadSeed(base, n), runCount);
      RunStep(src, env, base, runCount, threads, n, t, h);
      WorkerNoCount(src, env, n, 0, runCount, ThreadSeed(base, n), Tally(0, 0, 0), map[]);
      assert Merge(h, w.1) == h;
      RunNoCount(src, env, base, runCount, threads, n + 1, AddTally(t, w.0), Merge(h, w.1));
    }
  }

  /** On a source that counts on every call, the histogram total grows by `threads * runCount`, as the counters do. */
  lemma {:induction false} RunHistogram(src: Source, env: Env, base: u64, runCount: nat, threads: nat, n: nat, t: Tally, h: Histogram)
    requires n <= threads
    requires forall snap, st :: src(snap, st).counted.Some?
    ensures HistTotal(RunFrom(src, env, base, runCount, threads, n, t, h).1) == HistTotal(h) + (threads - n) * runCount
    decreases threads - n
  {
    if n < threads {
      var w := Worker(src, env, n, ThreadSeed(base, n), runCount);
      RunStep(src, env, base, runCount, threads, n, t, h);
      WorkerCountsEvery(src, env, n, 0, runCount, ThreadSeed(base, n), Tally(0, 0, 0), map[]);
      CountOverEmpty(KIND_ORDER);
      MergeProperties(h, w.1, map[]);
      RunHistogram(src, env, base, runCount, threads, n + 1, AddTally(t, w.0), Merge(h, w.1));
      MulStep(threads - n, runCount);
    }
  }

  /**
   * What a whole run counts: `threads * runCount` outcomes; without weights an
   * empty histogram; with weights of positive sum a histogram of the same total.
   */
  lemma RunCounts(prob: Option<StmtProb>, env: Env, base: u64, runCount: nat, threads: nat)
    ensures var r := RunFrom(SourceOf(prob, env.oracles), env, base, runCount, threads, 0, Tally(0, 0, 0), map[]);
      && r.0.Total() == threads * runCount
      && (prob.None? ==> r.1 == map[])
      && (prob.Some? && Sum(Weights(prob.value)) > 0 ==> HistTotal(r.1) == threads * runCount)
  {
    var src := SourceOf(prob, env.oracles);
    RunTallyTotal(src, env, base, runCount, threads);
    if prob.None? {
      SourceNoProb(env.oracles);
      RunNoCount(src, env, base, runCount, threads, 0, Tally(0, 0, 0), map[]);
    } else if Sum(Weights(prob.value)) > 0 {
      SourceCountsSome(prob.value, env.oracles);
      RunHistogram(src, env, base, runCount, threads, 0, Tally(0, 0, 0), map[]);
    }
  }

  /** `SqliteEngine`: the generator, the seed it was built from, the run parameters and the weights. */
  class SqliteEngine {
    var rng: LcgRng
    var seed: u64
    var runCount: nat
    var threadPerExec: nat
    var stmtProb: Option<StmtProb>

    constructor (seed: u64, runCount: nat, threadPerExec: nat, stmtProb: Option<StmtProb>)
      ensures fresh(rng) && rng.next == seed % MODULUS
      ensures this.seed == seed && this.runCount == runCount && this.threadPerExec == threadPerExec
      ensures this.stmtProb == stmtProb
    {
      rng := new LcgRng(seed % MODULUS);
      this.seed := seed;
      this.runCount := runCount;
      this.threadPerExec := threadPerExec;
      this.stmtProb := stmtProb;
    }

    /** `run`: one worker after another, each added into the shared counters and histogram. */
    method Run(env: Env) returns (t: Tally, hist: Histogram)
      requires ProbFits(stmtProb)
      ensures (t, hist) == RunFrom(SourceOf(stmtProb, env.oracles), env, seed, runCount, threadPerExec, 0, Tally(0, 0, 0), map[])
    {
      t, hist := Tally(0, 0, 0), map[];
      for n := 0 to threadPerExec
        invariant RunFrom(SourceOf(stmtProb, env.oracles), env, seed, runCount, threadPerExec, n, t, hist)
          == RunFrom(SourceOf(stmtProb, env.oracles), env, seed, runCount, threadPerExec, 0, Tally(0, 0, 0), map[])
      {
        var threadSeed := ThreadSeed(seed, n);
        RunStep(SourceOf(stmtProb, env.oracles), env, seed, runCount, threadPerExec, n, t, hist);
        var wt, local := RunWorker(stmtProb, env, n, threadSeed, runCount);
        t := AddTally(t, wt);
        hist := MergeCounts(hist, local);
      }
    }

    /** `generate_sql`: one statement from the engine's own generator. */
    method GenerateSql(snap: Snapshot, oracles: Oracles) returns (sql: string)
      requires ProbFits(stmtProb)
      modifies rng
      ensures sql == Iteration(stmtProb, snap, oracles, old(rng.next)).sql
      ensures rng.next == Iteration(stmtProb, snap, oracles, old(rng.next)).state
    {
      if stmtProb.Some? {
        var counted;
        sql, counted := GenerateSqlByProb(stmtProb.value, snap, oracles, rng);
      } else {
        sql := "SELECT 1;";
      }
    }
  }
}
