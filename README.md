# MangoInsurance: a verified model of the policy and claim state machine

MangoInsurance is a crop-insurance contract (Solidity, scaffold-eth-2 /
hardhat). An insurer deploys it and assigns roles. Farmers buy policies by
paying a premium of `coverage * rate / 100`, where `rate` is quoted by a
price oracle. Farmers then file claims against their own policies. The
insurer approves or rejects each claim, and an auditor may overturn a
rejection.

The contract's own source is not part of this model. Its behaviour is known
from the hardhat test suite `packages/hardhat/test/MangoInsurance.test.ts`,
and from the system's design for what the tests leave open (guards the
tests never exercise). The model has four modules:

- `Insurance` (insurance.dfy): the contract's state as a value `Ledger`. It holds the
  role map, the policy and claim tables keyed by ids starting at 1, both id
  counters, and the premium and payout totals. Each entry point is a function
  from the old ledger to either an `Error` or a new ledger. Because a
  reverting call yields no ledger at all, atomic failure holds by
  construction. The ledger invariant `Valid` says:
  - the keys are exactly `1 .. counter-1`;
  - every policy has positive coverage and `startDate < endDate`;
  - every claim names an existing policy, is for `0 < amount <= coverage`,
    and belongs to that policy's farmer.
- `Contract` (contract.dfy): class `MangoInsurance`. Its fields are the
  contract's storage (roles, both tables, both counters) plus two
  bookkeeping totals, `premiumsCollected` and `payoutsMade`, that stand for
  the ether flows and are not storage of the contract. Its methods update
  the fields in place. Each mutating
  method is proved to return what the matching `Insurance` function returns,
  to leave the storage exactly as that function's ledger, and to change
  nothing when it reverts.
- `Traces` (traces.dfy): runs of arbitrary call sequences. Proved over every
  run:
  - the invariant holds throughout;
  - a filed claim keeps its policy, farmer, amount and reason;
  - its status only moves along the state machine, `Approved` is terminal,
    and a claim once `Approved` or `Rejected` is never `Pending` again;
  - policies never change, and ids are never reused;
  - a reverted call can be repeated with the same error and no effect.
- `Scenarios` (scenarios.dfy): every test case as a client method of the
  class. Each is proved from the method contracts alone. The start date is a
  free parameter.

Encodings from the tests: role `Farmer = 0` and `Auditor = 2`, so `Insurer`
is the remaining `1`. Claim status `Pending = 0` and `Approved = 1`, so
`Rejected` is the remaining `2`. An address never given a role reads as
`Farmer`, the zero value of the role enum. The system's design instead
lists a separate `Unset` default role. The model follows the encoding the
tests use, so any unassigned address may buy a policy.

The role argument of `assignRole` is an enum (the tests label codes 0 and 2
`Role.Farmer` and `Role.Auditor`). A code outside the enum is refused while
the call is decoded, before the caller's role is looked at; the model
reports that as `InvalidRoleCode`.

Approval and a favourable dispute ruling add the claim amount to
`payoutsMade`. Purchases add the whole amount sent to `premiumsCollected`,
and any excess over the premium is kept, not refunded. Payouts are recorded
as a total and no solvency check is modelled. If the approval test (lines
107-126) passes, approval cannot be a transfer that needs the pool to cover
it: a 0.5-ether claim is approved there when the contract has taken in only
0.1 ether.

## Model

| member | source | states |
|---|---|---|
| Insurance.RoleFromCode | packages/hardhat/test/MangoInsurance.test.ts:34-36 | codes 0, 1, 2 and only those decode to a role, and decoding inverts `RoleCode` (Farmer 0, Auditor 2) |
| Insurance.ReachableIsClosure | packages/hardhat/test/MangoInsurance.test.ts:149-171 | the closed form `Reachable` holds exactly for zero, one or two `Transition` steps (Pending to Approved or Rejected, Rejected to Approved) |
| Insurance.Init | packages/hardhat/test/MangoInsurance.test.ts:27-34 | after deployment the deployer is insurer, every other address reads as Farmer, both tables are empty, both counters are 1, and the invariant holds |
| Insurance.AssignRole | packages/hardhat/test/MangoInsurance.test.ts:33-36 | succeeds iff the code is valid and the caller is insurer; an invalid code fails InvalidRoleCode whoever calls, a valid code from a non-insurer Unauthorized; only `who`'s role changes, to the given code; invariant preserved |
| Insurance.Premium | packages/hardhat/test/MangoInsurance.test.ts:41-48 | the premium is coverage·rate/100 rounded down: `p*100 <= coverage*rate < p*100 + 100` |
| Insurance.PurchasePolicy | packages/hardhat/test/MangoInsurance.test.ts:39-70 | succeeds iff caller is Farmer, coverage > 0, start < end and paid >= premium; zero coverage fails InvalidCoverageAmount, low payment InsufficientPremium; success stores `Policy(id, caller, coverage, start, end, true)` at the old counter, advances it, records the payment, changes nothing else, keeps the invariant |
| Insurance.FileClaim | packages/hardhat/test/MangoInsurance.test.ts:72-105 | succeeds iff the policy exists, is active, is the caller's, the caller is Farmer and 0 < amount <= coverage; missing policy NotFound, inactive policy PolicyInactive, another's policy or a non-Farmer caller Unauthorized, zero amount InvalidClaimAmount, excess ClaimExceedsCoverage; success stores a Pending claim at the old claim counter and changes nothing else |
| Insurance.WithStatus | packages/hardhat/test/MangoInsurance.test.ts:121-125 | only the one claim's status changes, and a payout adds exactly its claim amount; invariant preserved |
| Insurance.ApproveClaim | packages/hardhat/test/MangoInsurance.test.ts:107-147 | succeeds iff the caller is insurer and the claim exists and is Pending; a non-Pending claim fails ClaimNotPending; success sets only its status to Approved and pays its amount |
| Insurance.RejectClaim | packages/hardhat/test/MangoInsurance.test.ts:163-164 | succeeds iff the caller is insurer and the claim is Pending (else ClaimNotPending / Unauthorized / NotFound); success sets only its status to Rejected and pays nothing |
| Insurance.ResolveDispute | packages/hardhat/test/MangoInsurance.test.ts:149-192 | succeeds iff the caller is auditor and the claim is Rejected; any other status (Pending or Approved) fails ClaimNotPending; a favourable ruling sets only its status to Approved and pays, an unfavourable one changes nothing |
| Contract.MangoInsurance.constructor | packages/hardhat/test/MangoInsurance.test.ts:28-31 | the new storage is the deployment ledger with the deployer as insurer |
| Contract.MangoInsurance.RoleOf | packages/hardhat/test/MangoInsurance.test.ts:33-36 | returns the stored role, Farmer for an address never assigned |
| Contract.MangoInsurance.Policies | packages/hardhat/test/MangoInsurance.test.ts:51-54 | returns the stored policy exactly for ids 1 .. counter-1, NotFound otherwise |
| Contract.MangoInsurance.Claims | packages/hardhat/test/MangoInsurance.test.ts:85-88 | returns the stored claim exactly for ids 1 .. counter-1, NotFound otherwise |
| Contract.MangoInsurance.AssignRole | packages/hardhat/test/MangoInsurance.test.ts:34-36 | result and new storage are those of `Insurance.AssignRole`; storage untouched on revert; invariant kept |
| Contract.MangoInsurance.PurchasePolicy | packages/hardhat/test/MangoInsurance.test.ts:47-49 | result and new storage are those of `Insurance.PurchasePolicy`; storage untouched on revert; invariant kept |
| Contract.MangoInsurance.FileClaim | packages/hardhat/test/MangoInsurance.test.ts:83-83 | result and new storage are those of `Insurance.FileClaim`; storage untouched on revert; invariant kept |
| Contract.MangoInsurance.SetStatus | packages/hardhat/test/MangoInsurance.test.ts:122-122 | the in-place status write leaves the storage equal to `WithStatus` of the old storage |
| Contract.MangoInsurance.ApproveClaim | packages/hardhat/test/MangoInsurance.test.ts:122-122 | result and new storage are those of `Insurance.ApproveClaim`; storage untouched on revert; invariant kept |
| Contract.MangoInsurance.RejectClaim | packages/hardhat/test/MangoInsurance.test.ts:164-164 | result and new storage are those of `Insurance.RejectClaim`; storage untouched on revert; invariant kept |
| Contract.MangoInsurance.ResolveDispute | packages/hardhat/test/MangoInsurance.test.ts:167-167 | result and new storage are those of `Insurance.ResolveDispute`; storage untouched on revert; invariant kept |
| Traces.Exec | packages/hardhat/test/MangoInsurance.test.ts:65-69 | a reverted call leaves the ledger as it was; every call keeps the invariant |
| Traces.ExecKeepsClaim | packages/hardhat/test/MangoInsurance.test.ts:121-125 | one call keeps every existing claim, changes at most its status, and only by a legal state-machine step |
| Traces.RunPreservesValid | packages/hardhat/test/MangoInsurance.test.ts:72-89 | any sequence of calls from a valid ledger ends in a valid ledger |
| Traces.DeployedRunValid | packages/hardhat/test/MangoInsurance.test.ts:28-36 | every ledger reachable from deployment is valid |
| Traces.ClaimEvolution | packages/hardhat/test/MangoInsurance.test.ts:149-171 | over any run a claim persists, keeps its policy, farmer, amount and reason, and its status only goes Pending to Approved/Rejected and Rejected to Approved |
| Traces.ApprovedIsTerminal | packages/hardhat/test/MangoInsurance.test.ts:143-146 | no run changes an Approved claim |
| Traces.PoliciesImmutable | packages/hardhat/test/MangoInsurance.test.ts:51-54 | no run changes a stored policy; both id counters never decrease |
| Traces.FailedCallRepeats | packages/hardhat/test/MangoInsurance.test.ts:145-146 | repeating a reverted call reverts with the same error and the ledger is unchanged after both |
| Traces.NotPendingRefused | packages/hardhat/test/MangoInsurance.test.ts:146-146 | on any ledger, the insurer's approve and reject of a non-Pending claim, and the auditor's ruling on a non-Rejected claim, revert with ClaimNotPending |
| Traces.RejectedRefusesResolution | packages/hardhat/test/MangoInsurance.test.ts:163-164 | after any run, a claim once Rejected is not Pending, so approve and reject by the insurer fail ClaimNotPending |
| Traces.ApprovedRefusesResolution | packages/hardhat/test/MangoInsurance.test.ts:188-191 | after any run, an Approved claim refuses approve and reject by the insurer and dispute by the auditor with ClaimNotPending |
| Scenarios.Deploy | packages/hardhat/test/MangoInsurance.test.ts:13-37 | deployment plus the three role assignments give insurer, two farmers and the auditor, with empty tables |
| Scenarios.DeployWithPolicy | packages/hardhat/test/MangoInsurance.test.ts:74-80 | the common setup leaves exactly farmer 1's policy 1 |
| Scenarios.DeployWithClaim | packages/hardhat/test/MangoInsurance.test.ts:117-119 | the common setup leaves exactly farmer 1's Pending claim 1 |
| Scenarios.PurchaseScenario | packages/hardhat/test/MangoInsurance.test.ts:39-55 | at rate 10, 1 ether coverage for 0.1 ether succeeds as policy 1: farmer 1's, coverage 1 ether, active |
| Scenarios.ZeroCoverageScenario | packages/hardhat/test/MangoInsurance.test.ts:57-70 | coverage 0 reverts InvalidCoverageAmount, policy 1 does not exist, and the next valid purchase still gets id 1 |
| Scenarios.FileClaimScenario | packages/hardhat/test/MangoInsurance.test.ts:72-89 | the 0.5 ether claim becomes claim 1: farmer 1's, that amount, status code 0 |
| Scenarios.ZeroClaimScenario | packages/hardhat/test/MangoInsurance.test.ts:91-105 | a zero claim reverts InvalidClaimAmount and no claim exists |
| Scenarios.ApproveScenario | packages/hardhat/test/MangoInsurance.test.ts:107-126 | approval succeeds, status code becomes 1, all other claim fields as filed |
| Scenarios.ApproveTwiceScenario | packages/hardhat/test/MangoInsurance.test.ts:128-147 | the second and a third approval both revert ClaimNotPending and the claim stays Approved |
| Scenarios.DisputeScenario | packages/hardhat/test/MangoInsurance.test.ts:149-171 | reject then favourable dispute both succeed and the status code becomes 1 |
| Scenarios.DisputeApprovedScenario | packages/hardhat/test/MangoInsurance.test.ts:173-192 | a dispute on an approved claim reverts ClaimNotPending and the claim stays Approved |

## Left out

- The price oracle (`MockOracle`, `setPremiumRate`) is not modelled. The rate it would quote is the `rate` argument of `PurchasePolicy`.
- Ether transfers are not modelled. The value sent with a purchase is the `paid` argument. Payouts are a running total, with no contract balance and no failed transfer.
- Events and reason strings are not modelled. Reverts are `Error` values; the three messages the tests check are "Invalid coverage amount", "Invalid claim amount" and "Claim is not pending".
- Signers, `connect`, deployment waits and console output are test harness. Callers are plain `Address` arguments.
- Timestamps from the wall clock are not modelled. Dates are naturals chosen by the caller, and nothing checks them against the current time.
- `parseEther` is not needed: amounts are naturals in wei.
- uint256 bounds are not modelled: integers are unbounded, so a checked-arithmetic overflow revert in `coverage * rate` is missing.
- The deployment's oracle address argument plays no part in the model.
- The source of the contract itself is not part of this model. The following follow the system's design, not the tests:
  - the guards the tests never exercise: role checks on purchase, claim, approve, reject and dispute; `startDate < endDate`; amount <= coverage; the claimant owning the policy; the policy being active;
  - the order in which those guards are checked, which decides which error a call with several faults reports.
- Existence checks are taken from the system's design, which makes both tables append-only: `FileClaim` fails `NotFound` for an unused policy id, and `ApproveClaim`, `RejectClaim` and `ResolveDispute` fail `NotFound` for an unused claim id. The tests never reach these branches. A contract that reads Solidity mappings without such a check would see an unused claim id as a zero-filled claim with status Pending (0), so approving or rejecting it would succeed and write a claim that was never filed. The invariant `Valid` (claim keys exactly `1 .. counter-1`) rests on these checks.
- Policy deactivation is not modelled. No operation clears `isActive`, so the `PolicyInactive` guard is never taken from a reachable state.
- Lookups of an unused id return `NotFound`, as the system's design says. A Solidity public getter would instead return a zero-filled record.
- A dispute ruled against the farmer leaves the claim `Rejected`. The status cannot tell a confirmed rejection from a fresh one, so such a claim can be disputed again.
