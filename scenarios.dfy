/** The behaviour the MangoInsurance test suite asserts, one client method
    per test case, proved from the contract's method specifications alone.
    Accounts 0 to 3 of the test become addresses 1 to 4; amounts are in wei;
    the start date is left free, since the test takes it from the clock. */
module Scenarios {
  import opened Insurance
  import opened Contract

  const INSURER: Address := 1
  const FARMER1: Address := 2
  const FARMER2: Address := 3
  const AUDITOR: Address := 4

  const ETHER: nat := 1_000_000_000_000_000_000
  const COVERAGE: nat := ETHER          // parseEther("1.0")
  const PREMIUM_PAID: nat := ETHER / 10 // parseEther("0.1")
  const CLAIM_AMOUNT: nat := ETHER / 2  // parseEther("0.5")
  const RATE: nat := 10                 // setPremiumRate(10)
  const THIRTY_DAYS: nat := 3600 * 24 * 30
  const REASON: string := "Sample reason"

  /** Deployment by the insurer, then roles for both farmers and the auditor. */
  method Deploy() returns (c: MangoInsurance)
    ensures fresh(c) && c.Valid()
    ensures c.policies == map[] && c.claims == map[]
    ensures c.nextPolicyId == 1 && c.nextClaimId == 1
    ensures RoleOf(c.roles, INSURER) == Insurer && RoleOf(c.roles, FARMER1) == Farmer &&
            RoleOf(c.roles, FARMER2) == Farmer && RoleOf(c.roles, AUDITOR) == Auditor
  {
    c := new MangoInsurance(INSURER);
    var r1 := c.AssignRole(INSURER, FARMER1, 0);
    var r2 := c.AssignRole(INSURER, FARMER2, 0);
    var r3 := c.AssignRole(INSURER, AUDITOR, 2);
  }

  /** Deployment followed by farmer 1 buying the one policy every test starts from. */
  method DeployWithPolicy(start: nat) returns (c: MangoInsurance)
    ensures fresh(c) && c.Valid()
    ensures c.policies == map[1 := Policy(1, FARMER1, COVERAGE, start, start + THIRTY_DAYS, true)]
    ensures c.claims == map[] && c.nextPolicyId == 2 && c.nextClaimId == 1
    ensures RoleOf(c.roles, INSURER) == Insurer && RoleOf(c.roles, FARMER1) == Farmer &&
            RoleOf(c.roles, AUDITOR) == Auditor
  {
    c := Deploy();
    var r := c.PurchasePolicy(FARMER1, COVERAGE, start, start + THIRTY_DAYS, PREMIUM_PAID, RATE);
  }

  /** ... and the claim of 0.5 ether on it. */
  method DeployWithClaim(start: nat) returns (c: MangoInsurance)
    ensures fresh(c) && c.Valid()
    ensures c.claims == map[1 := Claim(1, 1, FARMER1, CLAIM_AMOUNT, REASON, Pending)]
    ensures c.nextClaimId == 2
    ensures RoleOf(c.roles, INSURER) == Insurer && RoleOf(c.roles, AUDITOR) == Auditor
  {
    c := DeployWithPolicy(start);
    var r := c.FileClaim(FARMER1, 1, CLAIM_AMOUNT, REASON);
  }

  /** "should allow farmers to purchase policies": paying exactly 10% buys policy 1. */
  method PurchaseScenario(start: nat) returns (r: Result<nat>, p: Result<Policy>)
    ensures r == Success(1)
    ensures p.Success? && p.value.farmer == FARMER1 && p.value.coverageAmount == COVERAGE &&
            p.value.isActive
  {
    var c := Deploy();
    r := c.PurchasePolicy(FARMER1, COVERAGE, start, start + THIRTY_DAYS, PREMIUM_PAID, RATE);
    p := c.Policies(1);
  }

  /** "should not allow farmers to purchase policies with invalid coverage
      amount": the call reverts, no policy 1 exists, and the id is not used up. */
  method ZeroCoverageScenario(start: nat) returns (r: Result<nat>, p: Result<Policy>, next: Result<nat>)
    ensures r == Failure(InvalidCoverageAmount)
    ensures p == Failure(NotFound)
    ensures next == Success(1)
  {
    var c := Deploy();
    r := c.PurchasePolicy(FARMER1, 0, start, start + THIRTY_DAYS, PREMIUM_PAID, RATE);
    p := c.Policies(1);
    next := c.PurchasePolicy(FARMER1, COVERAGE, start, start + THIRTY_DAYS, PREMIUM_PAID, RATE);
  }

  /** "should allow farmers to file claims": claim 1 is farmer 1's, for the
      amount asked, and Pending (status code 0). */
  method FileClaimScenario(start: nat) returns (r: Result<nat>, claim: Result<Claim>)
    ensures r == Success(1)
    ensures claim.Success? && claim.value.farmer == FARMER1 &&
            claim.value.claimAmount == CLAIM_AMOUNT && StatusCode(claim.value.status) == 0
  {
    var c := DeployWithPolicy(start);
    r := c.FileClaim(FARMER1, 1, CLAIM_AMOUNT, REASON);
    claim := c.Claims(1);
  }

  /** "should not allow farmers to file claims with invalid claim amount":
      the call reverts and no claim exists. */
  method ZeroClaimScenario(start: nat) returns (r: Result<nat>, claim: Result<Claim>)
    ensures r == Failure(InvalidClaimAmount)
    ensures claim == Failure(NotFound)
  {
    var c := DeployWithPolicy(start);
    r := c.FileClaim(FARMER1, 1, 0, REASON);
    claim := c.Claims(1);
  }

  /** "should allow insurer to approve claims": status code 1, all else as filed. */
  method ApproveScenario(start: nat) returns (r: Result<()>, claim: Result<Claim>)
    ensures r == Success(())
    ensures claim == Success(Claim(1, 1, FARMER1, CLAIM_AMOUNT, REASON, Approved))
    ensures StatusCode(claim.value.status) == 1
  {
    var c := DeployWithClaim(start);
    r := c.ApproveClaim(INSURER, 1);
    claim := c.Claims(1);
  }

  /** "should not allow insurer to approve claims that are not pending": the
      second approval reverts, a third reverts the same way, and the claim
      stays Approved. */
  method ApproveTwiceScenario(start: nat)
    returns (first: Result<()>, second: Result<()>, third: Result<()>, claim: Result<Claim>)
    ensures first == Success(())
    ensures second == Failure(ClaimNotPending) && third == second
    ensures claim.Success? && claim.value.status == Approved
  {
    var c := DeployWithClaim(start);
    first := c.ApproveClaim(INSURER, 1);
    second := c.ApproveClaim(INSURER, 1);
    third := c.ApproveClaim(INSURER, 1);
    claim := c.Claims(1);
  }

  /** "should allow auditor to resolve disputes": rejected, then approved on
      the auditor's favourable ruling. */
  method DisputeScenario(start: nat) returns (rejected: Result<()>, resolved: Result<()>, claim: Result<Claim>)
    ensures rejected == Success(()) && resolved == Success(())
    ensures claim.Success? && StatusCode(claim.value.status) == 1
  {
    var c := DeployWithClaim(start);
    rejected := c.RejectClaim(INSURER, 1);
    resolved := c.ResolveDispute(AUDITOR, 1, true);
    claim := c.Claims(1);
  }

  /** "should not allow auditor to resolve disputes that are not pending": a
      dispute on an approved claim reverts and the claim stays Approved. */
  method DisputeApprovedScenario(start: nat) returns (r: Result<()>, claim: Result<Claim>)
    ensures r == Failure(ClaimNotPending)
    ensures claim.Success? && claim.value.status == Approved
  {
    var c := DeployWithClaim(start);
    var approved := c.ApproveClaim(INSURER, 1);
    r := c.ResolveDispute(AUDITOR, 1, true);
    claim := c.Claims(1);
  }
}
