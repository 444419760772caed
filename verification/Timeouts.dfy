/** The command-timeout cascade: every layer's deadline derived from one in-game budget. */
module Timeouts {
  import opened Arithmetic

  const ABSOLUTE_CEILING_MS: int := 60_000
  const READY_WAIT_MS: int := 10_000
  const BRIDGE_WALL_SLOP_MS: int := 5_000
  const RELAY_MARGIN_MS: int := 2_000
  const SERVER_MARGIN_MS: int := 2_000
  const FIXED_OVERHEAD_MS: int := BRIDGE_WALL_SLOP_MS + RELAY_MARGIN_MS + SERVER_MARGIN_MS

  const STEP_BUDGET_CAP_MS: int := 50_000
  const INPUT_BUDGET_CAP_MS: int := 40_000
  const EXEC_BUDGET_CAP_MS: int := 30_000

  /** A JavaScript number as the cascade sees it: `Number.isFinite` or not. */
  datatype Number = Finite(value: real) | NotFinite

  datatype Derived = Derived(bridgeWallMs: int, relayMs: int, serverMs: int, clampedBudgetMs: int)

  function Ready(readyWait: bool): int {
    if readyWait then READY_WAIT_MS else 0
  }

  function MaxInGameBudgetMs(readyWait: bool): int {
    ABSOLUTE_CEILING_MS - FIXED_OVERHEAD_MS - Ready(readyWait)
  }

  function Clamp(budget: int, cap: int): int {
    var low := if budget < 0 then 0 else budget;
    if low > cap then cap else low
  }

  /** `deriveTimeouts`: the ladder is strictly staggered and capped for any number at all, and
      the declared budget survives exactly when its ceiling lies between 0 and the maximum. */
  function DeriveTimeouts(inGameBudgetMs: Number, readyWait: bool): (d: Derived)
    ensures 0 <= d.clampedBudgetMs <= if readyWait then 41000 else 51000
    ensures d.clampedBudgetMs < d.bridgeWallMs < d.relayMs < d.serverMs <= 60000
    ensures !inGameBudgetMs.Finite? || inGameBudgetMs.value <= 0.0 ==> d.clampedBudgetMs == 0
    ensures d.serverMs == d.relayMs + 2000
    ensures d.relayMs == d.bridgeWallMs + 2000 + (if readyWait then 10000 else 0)
    ensures d.bridgeWallMs == d.clampedBudgetMs + 5000
    ensures inGameBudgetMs.Finite? ==>
      (inGameBudgetMs.value <= d.clampedBudgetMs as real
       <==> inGameBudgetMs.value <= if readyWait then 41000.0 else 51000.0)
    ensures inGameBudgetMs.Finite? && 0.0 <= inGameBudgetMs.value <= (if readyWait then 41000.0 else 51000.0)
      ==> d.clampedBudgetMs as real - 1.0 < inGameBudgetMs.value
  {
    var budget := if inGameBudgetMs.Finite? then Ceil(inGameBudgetMs.value) else 0;
    var clamped := Clamp(budget, MaxInGameBudgetMs(readyWait));
    var bridgeWall := clamped + BRIDGE_WALL_SLOP_MS;
    var relay := Ready(readyWait) + bridgeWall + RELAY_MARGIN_MS;
    Derived(bridgeWall, relay, relay + SERVER_MARGIN_MS, clamped)
  }

  /** The published caps fit under the ceiling for their ready-wait class, so none is clamped. */
  lemma PublishedCapsAreNeverClamped(budget: nat)
    ensures budget <= 50000 ==> DeriveTimeouts(Finite(budget as real), false).clampedBudgetMs == budget
    ensures budget <= 30000 ==> DeriveTimeouts(Finite(budget as real), false).clampedBudgetMs == budget
    ensures budget <= 40000 ==> DeriveTimeouts(Finite(budget as real), true).clampedBudgetMs == budget
  {
    assert Ceil(budget as real) == budget;
  }
}
