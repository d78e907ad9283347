/**
 * The record shapes of common/profile.rs that the engines read. Reading and
 * writing `profile.json` is not modelled.
 */
module Config {
  import opened Wrappers

  const U64_MODULUS: nat := 0x1_0000_0000_0000_0000

  type u64 = x: int | 0 <= x < 0x1_0000_0000_0000_0000

  /** `StmtProb`: one weight per statement kind, plus DATE_FUNC, which no engine reads. */
  datatype StmtProb = StmtProb(
    delete: u64,
    select: u64,
    insert: u64,
    update: u64,
    vacuum: u64,
    pragma: u64,
    createTrigger: u64,
    dropTrigger: u64,
    dateFunc: u64)

  /** The parts of `Profile` the engines consult. */
  datatype Profile = Profile(threadPerExec: Option<nat>, stmtProb: Option<StmtProb>)

  /** The weights `read_profile` writes when there is no `profile.json`. */
  const DEFAULT_STMT_PROB: StmtProb := StmtProb(20, 100, 50, 50, 20, 10, 10, 10, 20)
}
