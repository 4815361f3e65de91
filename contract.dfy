/** The MangoInsurance contract as an object: its storage is the fields of
    the class and each entry point updates them in place. Every method is
    proved to do exactly what the matching function of module Insurance
    says, including leaving the storage untouched when it reverts. */
module Contract {
  import opened Insurance

  class MangoInsurance {
    var roles: map<Address, Role>
    var policies: map<nat, Policy>
    var claims: map<nat, Claim>
    var nextPolicyId: nat
    var nextClaimId: nat
    var premiumsCollected: nat
    var payoutsMade: nat

    /** The storage as a ledger value. */
    ghost function State(): Ledger
      reads this
    {
      Ledger(roles, policies, claims, nextPolicyId, nextClaimId, premiumsCollected, payoutsMade)
    }

    ghost predicate Valid()
      reads this
    {
      Insurance.Valid(State())
    }

    /** Deployment: the deployer becomes the insurer. */
    constructor (deployer: Address)
      ensures Valid()
      ensures State() == Init(deployer)
    {
      roles := map[deployer := Insurer];
      policies := map[];
      claims := map[];
      nextPolicyId := 1;
      nextClaimId := 1;
      premiumsCollected := 0;
      payoutsMade := 0;
    }

    /** roleOf: the caller-visible role of an address. */
    method RoleOf(who: Address) returns (r: Role)
      ensures r == Insurance.RoleOf(roles, who)
      ensures who !in roles ==> r == Farmer
    {
      if who in roles {
        r := roles[who];
      } else {
        r := Farmer;
      }
    }

    /** The public getter policies(id). */
    method Policies(id: nat) returns (r: Result<Policy>)
      requires Valid()
      ensures r.Success? <==> 1 <= id < nextPolicyId
      ensures r.Success? ==> r.value == policies[id] && r.value.id == id
      ensures r.Failure? ==> r.error == NotFound
    {
      if id in policies {
        r := Success(policies[id]);
      } else {
        r := Failure(NotFound);
      }
    }

    /** The public getter claims(id). */
    method Claims(id: nat) returns (r: Result<Claim>)
      requires Valid()
      ensures r.Success? <==> 1 <= id < nextClaimId
      ensures r.Success? ==> r.value == claims[id] && r.value.id == id
      ensures r.Failure? ==> r.error == NotFound
    {
      if id in claims {
        r := Success(claims[id]);
      } else {
        r := Failure(NotFound);
      }
    }

    method AssignRole(caller: Address, who: Address, code: nat) returns (r: Result<()>)
      requires Valid()
      modifies this
      ensures Valid()
      ensures var s := Insurance.AssignRole(old(State()), caller, who, code);
        if s.Success? then r == Success(()) && State() == s.value
        else r == Failure(s.error) && State() == old(State())
    {
      var role := RoleFromCode(code);
      if role.None? {
        return Failure(InvalidRoleCode);
      }
      if Insurance.RoleOf(roles, caller) != Insurer {
        return Failure(Unauthorized);
      }
      roles := roles[who := role.value];
      r := Success(());
    }

    /** purchasePolicy, paying `paid` wei when the oracle quotes `rate` percent. */
    method PurchasePolicy(caller: Address, coverage: nat, startDate: nat, endDate: nat,
                          paid: nat, rate: nat) returns (r: Result<nat>)
      requires Valid()
      modifies this
      ensures Valid()
      ensures var s := Insurance.PurchasePolicy(old(State()), caller, coverage, startDate, endDate, paid, rate);
        if s.Success? then r == Success(s.value.0) && State() == s.value.1
        else r == Failure(s.error) && State() == old(State())
    {
      if Insurance.RoleOf(roles, caller) != Farmer {
        return Failure(Unauthorized);
      }
      if coverage == 0 {
        return Failure(InvalidCoverageAmount);
      }
      if startDate >= endDate {
        return Failure(InvalidDates);
      }
      if paid < Premium(coverage, rate) {
        return Failure(InsufficientPremium);
      }
      var id := nextPolicyId;
      policies := policies[id := Policy(id, caller, coverage, startDate, endDate, true)];
      nextPolicyId := nextPolicyId + 1;
      premiumsCollected := premiumsCollected + paid;
      r := Success(id);
    }

    method FileClaim(caller: Address, policyId: nat, amount: nat, reason: string)
      returns (r: Result<nat>)
      requires Valid()
      modifies this
      ensures Valid()
      ensures var s := Insurance.FileClaim(old(State()), caller, policyId, amount, reason);
        if s.Success? then r == Success(s.value.0) && State() == s.value.1
        else r == Failure(s.error) && State() == old(State())
    {
      if policyId !in policies {
        return Failure(NotFound);
      }
      var policy := policies[policyId];
      if !policy.isActive {
        return Failure(PolicyInactive);
      }
      if policy.farmer != caller || Insurance.RoleOf(roles, caller) != Farmer {
        return Failure(Unauthorized);
      }
      if amount == 0 {
        return Failure(InvalidClaimAmount);
      }
      if amount > policy.coverageAmount {
        return Failure(ClaimExceedsCoverage);
      }
      var id := nextClaimId;
      claims := claims[id := Claim(id, policyId, caller, amount, reason, Pending)];
      nextClaimId := nextClaimId + 1;
      r := Success(id);
    }

    /** Overwrites the status of an existing claim, releasing its amount when `pays`. */
    method SetStatus(id: nat, s: ClaimStatus, pays: bool)
      requires id in claims
      modifies this
      ensures State() == WithStatus(old(State()), id, s, pays)
    {
      var claim := claims[id];
      claims := claims[id := claim.(status := s)];
      if pays {
        payoutsMade := payoutsMade + claim.claimAmount;
      }
    }

    method ApproveClaim(caller: Address, id: nat) returns (r: Result<()>)
      requires Valid()
      modifies this
      ensures Valid()
      ensures var s := Insurance.ApproveClaim(old(State()), caller, id);
        if s.Success? then r == Success(()) && State() == s.value
        else r == Failure(s.error) && State() == old(State())
    {
      if Insurance.RoleOf(roles, caller) != Insurer {
        return Failure(Unauthorized);
      }
      if id !in claims {
        return Failure(NotFound);
      }
      if claims[id].status != Pending {
        return Failure(ClaimNotPending);
      }
      SetStatus(id, Approved, true);
      r := Success(());
    }

    method RejectClaim(caller: Address, id: nat) returns (r: Result<()>)
      requires Valid()
      modifies this
      ensures Valid()
      ensures var s := Insurance.RejectClaim(old(State()), caller, id);
        if s.Success? then r == Success(()) && State() == s.value
        else r == Failure(s.error) && State() == old(State())
    {
      if Insurance.RoleOf(roles, caller) != Insurer {
        return Failure(Unauthorized);
      }
      if id !in claims {
        return Failure(NotFound);
      }
      if claims[id].status != Pending {
        return Failure(ClaimNotPending);
      }
      SetStatus(id, Rejected, false);
      r := Success(());
    }

    method ResolveDispute(caller: Address, id: nat, favored: bool) returns (r: Result<()>)
      requires Valid()
      modifies this
      ensures Valid()
      ensures var s := Insurance.ResolveDispute(old(State()), caller, id, favored);
        if s.Success? then r == Success(()) && State() == s.value
        else r == Failure(s.error) && State() == old(State())
    {
      if Insurance.RoleOf(roles, caller) != Auditor {
        return Failure(Unauthorized);
      }
      if id !in claims {
        return Failure(NotFound);
      }
      if claims[id].status != Rejected {
        return Failure(ClaimNotPending);
      }
      if favored {
        SetStatus(id, Approved, true);
      }
      r := Success(());
    }
  }
}
