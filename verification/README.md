# Liquidity panel of a two-token AMM pool

This project models the client-side liquidity panel of a small two-token DEX
(`SimpleDEX`, tokens A and B). The panel keeps a draft deposit (`amountA`,
`amountB`) and a draft withdrawal (`removeAmount`). It keeps two approval flags
and a ratio diagnostic (`ratioError`). The panel reads a snapshot of the
pool's reserves, the LP supply, the user's liquidity, the two allowances and
the two token decimals.

- `pool_math.dfy` (module `PoolMath`) holds the pure part:
  - the pool-state predicates (first deposit, priced pool) and the exact
    reserve ratio;
  - the `|| default` rule for token decimals;
  - the guard of the ratio check;
  - the ordered checks of the add and remove handlers;
  - the withdrawal preview `removeScaled * reserve / totalLiquidity`, using
    BigInt division (truncation toward zero). Lemmas show that for a
    non-negative LP amount it never overstates, and that for an amount
    within the supply it never exceeds the reserve. The LP field has no
    minimum (line 438 of `LiquidityPanel.tsx`), and a negative field previews
    a negative payout truncated toward zero (`TruncDiv`);
  - the zero case of the balance display;
  - the predicates that show and enable the action buttons.
- `liquidity_panel.dfy` (module `Panel`) holds class `LiquidityPanel`. It has
  the draft fields and one method per handler: editing A, editing B, editing
  the LP field, the approval recomputation, add and remove. Its invariant
  `Valid()` says that a ratio diagnostic only stands against two usable
  amounts; every handler keeps it. Five client methods follow the class and
  chain the handlers as the page does. They call the approval recomputation
  after every change of its inputs, as the page's effect does:
  - a first deposit auto-fills 1:1 and never raises a diagnostic;
  - a failed deposit can be retried unchanged;
  - approving the typed amount hides "Approve A";
  - an allowance used up to exactly 0 leaves a stale approval flag;
  - with both allowances loaded, a shown "Approve" button is never disabled
    and the add button is shown exactly when both allowances cover the
    amounts.

The parts of the panel that use floating point are abstract:
- the ratio-tolerance comparison enters as `outOfTolerance`;
- the auto-fill proposals enter as `proposedA`/`proposedB`;
- the non-zero balance text enters as `formatted`.

Number parsing (`parseFloat(s) > 0` and `parseUnits`) is the datatype `Units`,
which holds two given total functions fixed for the session. A chain write (the
add-liquidity and remove-liquidity transactions) is its success or failure,
passed in as `writeSucceeds`.

Three behaviours of the code are worth knowing (line numbers refer to
`packages/nextjs/app/dex/_components/LiquidityPanel.tsx`):
- The approval flags are recomputed only while both allowances are truthy
  (line 101). An allowance of exactly 0 is falsy, so the flags keep their old
  values and the ratio diagnostic is cleared (lines 112-114;
  `StaleApprovalAfterAllowanceSpent`).
- `decimalsA || 18` and `decimalsB || 6` (lines 83-84) turn a reported 0
  into the default, so a token with 0 decimals is scaled as if it had 18 or 6
  (`DecimalsOr`).
- The add button checks only that both fields are non-empty (line 409). The
  add handler also checks that both amounts are positive (line 238), so an
  enabled add button can still be rejected with "Enter valid amounts"
  (`AddGateRefinesButton`, `EnabledAddCanBeRejected`).

## Model

| member | source | states |
|---|---|---|
| `PoolMath.CurrentRatio` | packages/nextjs/app/dex/_components/LiquidityPanel.tsx:33-34 | the ratio is the default 1:1 exactly when not both reserves are positive; otherwise it is the exact fraction reserveB/reserveA |
| `PoolMath.PoolStates` | packages/nextjs/app/dex/_components/LiquidityPanel.tsx:30-34 | a first-time pool (both reserves 0) is never priced; a pool with exactly one zero reserve is neither first-time nor priced and gets the default ratio |
| `PoolMath.DecimalsOr` | packages/nextjs/app/dex/_components/LiquidityPanel.tsx:83-84 | a reported non-zero decimals value is used; a missing value or a reported 0 falls back to the default (18 for A, 6 for B) |
| `PoolMath.ValidateRatio` | packages/nextjs/app/dex/_components/LiquidityPanel.tsx:118-138 | a diagnostic is raised only when both amounts are non-empty and positive, and then exactly when the tolerance comparison fails |
| `PoolMath.AddGateVerdicts` | packages/nextjs/app/dex/_components/LiquidityPanel.tsx:237-247 | the add gate `AddGate` passes iff both amounts are usable and (first deposit or no diagnostic); unusable amounts are rejected with "Enter valid amounts" whatever the diagnostic; a ratio rejection implies usable amounts in an existing pool |
| `PoolMath.RemoveGateVerdicts` | packages/nextjs/app/dex/_components/LiquidityPanel.tsx:262-273 | the remove gate `RemoveGate` passes iff the amount is usable and its 18-decimal scaling is at most the user's liquidity; an unusable amount is rejected before liquidity is compared |
| `PoolMath.TruncDiv` | packages/nextjs/app/dex/_components/LiquidityPanel.tsx:303-306 | BigInt division by a positive divisor truncates toward zero: floor for non-negative numerators, ceiling for negative ones |
| `PoolMath.ProRata` | packages/nextjs/app/dex/_components/LiquidityPanel.tsx:303-306 | for a non-negative burn the payout is the floor of burn*reserve/supply: payout*supply <= burn*reserve < (payout+1)*supply, so the preview never overstates |
| `PoolMath.ExpectedPayout` | packages/nextjs/app/dex/_components/LiquidityPanel.tsx:302-306 | the preview is 0 for an empty field or an empty supply, and otherwise the pro-rata share of the 18-decimal-scaled amount |
| `PoolMath.ProRataWholeSupply` | packages/nextjs/app/dex/_components/LiquidityPanel.tsx:303-306 | burning the whole supply previews exactly the whole reserve |
| `PoolMath.ProRataMonotone` | packages/nextjs/app/dex/_components/LiquidityPanel.tsx:303-306 | burning more never previews less |
| `PoolMath.ProRataWithinReserve` | packages/nextjs/app/dex/_components/LiquidityPanel.tsx:303-306 | burning at most the supply previews between 0 and the reserve |
| `PoolMath.ProRataSplitNoGain` | packages/nextjs/app/dex/_components/LiquidityPanel.tsx:303-306 | two partial withdrawals never preview more in total than the same withdrawal at once (rounding favours the pool) |
| `PoolMath.PassedWithdrawalWithinReserves` | packages/nextjs/app/dex/_components/LiquidityPanel.tsx:262-306 | a withdrawal that passed the remove gate, with user liquidity within the supply, previews at most each reserve |
| `PoolMath.ProRataSplitManyNoGain` | packages/nextjs/app/dex/_components/LiquidityPanel.tsx:303-306 | a withdrawal split into any number of parts never previews more in total than the same withdrawal at once |
| `PoolMath.PayoutExample` | packages/nextjs/app/dex/_components/LiquidityPanel.tsx:302-306 | reserves 1000/2000, supply 100, burn 10 give pro-rata shares of exactly 100/200; an empty supply or an empty field previews 0 |
| `PoolMath.FormatBalance` | packages/nextjs/app/dex/_components/LiquidityPanel.tsx:286-287 | an undefined or zero balance displays "0.0" |
| `PoolMath.RemovePreview` | packages/nextjs/app/dex/_components/LiquidityPanel.tsx:446-456 | an empty LP field hides the preview (`PreviewShown`, line 447); a shown preview against an empty supply displays "0.0" on both lines |
| `PoolMath.EnabledAddCanBeRejected` | packages/nextjs/app/dex/_components/LiquidityPanel.tsx:405-413 | for every parser that does not read "0" as positive, the add button of a new pool is enabled with "0" and "1" in the fields, yet the click is rejected with "Enter valid amounts" |
| `PoolMath.AddGateRefinesButton` | packages/nextjs/app/dex/_components/LiquidityPanel.tsx:405-413 | the add gate `AddGate` passes iff the add button is enabled (`AddEnabled`, line 409) and both amounts are positive |
| `PoolMath.RemoveGateRefinesButton` | packages/nextjs/app/dex/_components/LiquidityPanel.tsx:462-469 | the remove button is enabled (`RemoveEnabled`, line 466) iff the first check of `RemoveGate` passes |
| `Panel.LiquidityPanel.constructor` | packages/nextjs/app/dex/_components/LiquidityPanel.tsx:11-16 | a new panel has empty fields, no approvals and no diagnostic |
| `Panel.LiquidityPanel.Observe` | packages/nextjs/app/dex/_components/LiquidityPanel.tsx:20-28 | a refreshed chain snapshot replaces the old one and touches no draft |
| `Panel.LiquidityPanel.EditA` | packages/nextjs/app/dex/_components/LiquidityPanel.tsx:141-162 | A takes the value and the diagnostic is cleared; B is cleared for an empty or non-positive value, copied 1:1 in a first-time pool, set to the proposal in a priced pool, untouched in a one-sided pool |
| `Panel.LiquidityPanel.EditB` | packages/nextjs/app/dex/_components/LiquidityPanel.tsx:165-186 | the mirror image of EditA, writing into A |
| `Panel.LiquidityPanel.EditRemove` | packages/nextjs/app/dex/_components/LiquidityPanel.tsx:437-443 | the LP field takes the typed value |
| `Panel.LiquidityPanel.SyncApprovals` | packages/nextjs/app/dex/_components/LiquidityPanel.tsx:99-115 | with both allowances truthy, each flag is allowance >= scaled amount (empty = 0) and the diagnostic is re-derived in an existing pool with both fields filled, else kept; otherwise flags are kept and the diagnostic cleared |
| `Panel.LiquidityPanel.AddLiquidity` | packages/nextjs/app/dex/_components/LiquidityPanel.tsx:237-260 | a failed check rejects with its reason, calls no write and changes nothing; otherwise the write receives both scaled amounts, success clears both fields and the diagnostic, failure keeps every draft; a standing diagnostic never ends in "Enter valid amounts" |
| `Panel.LiquidityPanel.RemoveLiquidity` | packages/nextjs/app/dex/_components/LiquidityPanel.tsx:262-284 | a failed check rejects with its reason and no write; otherwise the write receives the 18-decimal amount (within the user's liquidity), and only success clears the LP field |
| `Panel.FirstDepositAutoFill` | packages/nextjs/app/dex/_components/LiquidityPanel.tsx:140-162 | in a first-time pool a positive A auto-fills B with the same text, and the following recomputation raises no diagnostic |
| `Panel.RetryAfterFailedAdd` | packages/nextjs/app/dex/_components/LiquidityPanel.tsx:249-260 | with the recomputation run after each edit, a failed write is followed by a retry that submits the same scaled amounts, and its success clears both fields |
| `Panel.ApproveThenRefresh` | packages/nextjs/app/dex/_components/LiquidityPanel.tsx:189-193 | approving exactly the scaled A amount and seeing it as the new allowance marks A approved, so "Approve A" is no longer offered |
| `Panel.ButtonsAfterEdits` | packages/nextjs/app/dex/_components/LiquidityPanel.tsx:99-115 | after edits followed by the recomputation, with both allowances loaded, a shown "Approve" button (`ApproveOffered` and `ApproveEnabled`, lines 395-403) is never disabled, and the add button (`AddOffered`, line 405) is shown exactly when each allowance covers its scaled amount |
| `Panel.StaleApprovalAfterAllowanceSpent` | packages/nextjs/app/dex/_components/LiquidityPanel.tsx:100-114 | once the A allowance reads 0, an earlier "approved" flag stays set although the allowance no longer covers the amount |

## Left out

- Reads of reserves, user liquidity, balances, symbols, decimals and allowances (lines 18-97): these are chain I/O. They are a `Ledger` snapshot that `Observe` replaces. A reserve or liquidity value that is not loaded reads as 0, as `|| 0n` does.
- Chain writes (lines 189-235): these are asynchronous transactions. Add and remove take the write's outcome as a parameter. `handleApproveA`/`handleApproveB` change no panel state; only the amount they approve (line 192, 198) is used, in `ApproveThenRefresh`.
- `parseFloat(s) > 0` and `parseUnits` (lines 102-103, 269): these are library parsing. They are the two functions of `Units`; what they compute is not modelled.
- `parseUnits` throwing: viem's `parseUnits` throws on a string it does not accept, such as the exponent form "1e5". A `type="number"` field (lines 345, 360, 438) accepts that form, `parseFloat` reads it as positive, and the auto-fill copies it into the other field (line 150). The panel calls `parseUnits` while rendering (lines 192, 198, 205, 212, 304, 306), in the approval effect (lines 102-103) and in the remove handler (line 269), so such a value makes the panel throw instead of computing a flag, a preview or a verdict. `Units.parseUnits` is a total function: the model assumes every field value parses, and `SyncApprovals`, `ExpectedPayout`, `AddLiquidity` and `RemoveLiquidity` return ordinary results where the page would throw.
- Floating-point parts: `ratioWithDecimals` with its fixed `10 ** 12` (line 35), the tolerance comparison of `validateRatio` (lines 124-137), the auto-fill values (lines 153-154, 177-178), `userSharePercent` (line 46), the non-zero branches of `formatBalance` (lines 289-299) and the Max button (line 432). Their results enter as parameters, or are omitted where nothing else depends on them.
- `PoolMath.ValidateRatio`: the text of the ratio message (line 134) is left out; the diagnostic is a boolean.
- Notifications, `console.error` and the delayed refetches (`setTimeout`): these are side effects and timing.
- Concurrency: a handler awaiting its write while the user keeps typing, and re-submission while a write is in flight. Each handler runs to completion with the state it started from.
- Rendering: only the boolean conditions the buttons use are kept.
- Effect scheduling: React runs the approval effect (lines 99-115) by itself, once after mounting and then after each render in which one of its dependencies (line 115) changed: `amountA`, `amountB`, either allowance, the first-time status or either decimals value. The model does not schedule it. `SyncApprovals` is called explicitly, and the client methods call it where React would run the effect: right after the constructor, after each edit that changes a field, after an `Observe` that changes a dependency, and after a successful `AddLiquidity`.
- Stale ratio diagnostic: `validateRatio` reads the pool ratio (line 128), but the reserves are not among the effect's dependencies (line 115). A refresh that changes the reserves but not the first-time status therefore leaves a diagnostic computed against the old ratio. A refresh that turns a first-time pool into a funded one does change a dependency, so the effect re-derives the diagnostic (lines 109-110). The model keeps that behaviour only if the caller does not call `SyncApprovals` after such an `Observe`, and no client method exercises it.
- `parseFloat(s) > 0` (lines 146-147, 170-171) and `parseFloat(s) <= 0` (lines 119, 238, 263, 466) are modelled as `isPositive(s)` and its negation. The two differ only on NaN. NaN cannot reach them: the fields are `type="number"` inputs (lines 345, 360, 438) and the auto-fill writes `toFixed` output (lines 154, 178).
