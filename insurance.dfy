/** The persistent state of the MangoInsurance contract as a value, and each of
    its mutating entry points as a function from the old state to either an
    error or the new state. A failed call yields no state at all, so every
    failure is atomic by construction. The class in module Contract is proved
    against these functions. */
module Insurance {

  /** An account address; 0 plays the part of the zero address. */
  type Address = nat

  datatype Option<T> = None | Some(value: T)

  datatype Result<T> = Success(value: T) | Failure(error: Error)

  /** The reasons a call reverts. */
  datatype Error =
    | Unauthorized           // caller lacks the role or is not the policy's farmer
    | InvalidRoleCode        // the role argument is not a member of the enum (refused when the call is decoded)
    | InvalidCoverageAmount  // "Invalid coverage amount"
    | InvalidDates           // start date not before end date
    | InsufficientPremium    // value sent below coverage * rate / 100
    | NotFound               // no policy or claim under that id
    | PolicyInactive         // the policy is no longer active
    | InvalidClaimAmount     // "Invalid claim amount"
    | ClaimExceedsCoverage   // claim amount above the policy's coverage
    | ClaimNotPending        // "Claim is not pending"

  // ---------------------------------------------------------------------
  // Roles and their ABI encoding. An enum argument out of range is refused
  // while the call is decoded, before any check of the caller.

  datatype Role = Farmer | Insurer | Auditor

  function RoleCode(r: Role): nat {
    match r
    case Farmer => 0
    case Insurer => 1
    case Auditor => 2
  }

  /** Decodes the integer a caller passes for a role; out-of-range codes are refused. */
  function RoleFromCode(c: nat): (r: Option<Role>)
    ensures r.Some? <==> c < 3
    ensures r.Some? ==> RoleCode(r.value) == c
  {
    if c == 0 then Some(Farmer)
    else if c == 1 then Some(Insurer)
    else if c == 2 then Some(Auditor)
    else None
  }

  /** The role an address holds; an address never assigned reads as code 0. */
  function RoleOf(roles: map<Address, Role>, a: Address): Role {
    if a in roles then roles[a] else Farmer
  }

  // ---------------------------------------------------------------------
  // Claim status and its encoding

  datatype ClaimStatus = Pending | Approved | Rejected

  function StatusCode(s: ClaimStatus): nat {
    match s
    case Pending => 0
    case Approved => 1
    case Rejected => 2
  }

  /** One status change of the claim state machine. An unfavourable dispute
      ruling leaves a Rejected claim as it is, which is no change at all. */
  predicate Transition(from: ClaimStatus, to: ClaimStatus) {
    (from == Pending && to == Approved) ||
    (from == Pending && to == Rejected) ||
    (from == Rejected && to == Approved)
  }

  /** Zero or more steps of the claim state machine. */
  predicate Reachable(from: ClaimStatus, to: ClaimStatus) {
    from == to || from == Pending || (from == Rejected && to == Approved)
  }

  /** Reachable is the reflexive-transitive closure of Transition: it holds
      exactly for no step, one step, or two steps. */
  lemma ReachableIsClosure(from: ClaimStatus, to: ClaimStatus)
    ensures Reachable(from, to) <==>
      from == to || Transition(from, to) ||
      (exists mid :: Transition(from, mid) && Transition(mid, to))
  {
    if from == Pending && to == Pending {
      assert Transition(Pending, Rejected) && Transition(Rejected, Approved);
      assert !Transition(Rejected, Pending) && !Transition(Approved, Pending);
    }
  }

  // ---------------------------------------------------------------------
  // Records and the ledger

  datatype Policy = Policy(
    id: nat,
    farmer: Address,
    coverageAmount: nat,
    startDate: nat,
    endDate: nat,
    isActive: bool)

  datatype Claim = Claim(
    id: nat,
    policyId: nat,
    farmer: Address,
    claimAmount: nat,
    reason: string,
    status: ClaimStatus)

  /** Everything the contract stores. The two totals are in wei: premiums
      received with purchases, and claim amounts released on approval. */
  datatype Ledger = Ledger(
    roles: map<Address, Role>,
    policies: map<nat, Policy>,
    claims: map<nat, Claim>,
    nextPolicyId: nat,
    nextClaimId: nat,
    premiumsCollected: nat,
    payoutsMade: nat)

  /** The invariant every reachable ledger satisfies. */
  ghost predicate Valid(l: Ledger) {
    1 <= l.nextPolicyId && 1 <= l.nextClaimId &&
    (forall id :: id in l.policies <==> 1 <= id < l.nextPolicyId) &&
    (forall id :: id in l.claims <==> 1 <= id < l.nextClaimId) &&
    (forall id :: id in l.policies ==> PolicyOk(l.policies[id], id)) &&
    (forall id :: id in l.claims ==> ClaimOk(l, l.claims[id], id))
  }

  ghost predicate PolicyOk(p: Policy, id: nat) {
    p.id == id && p.coverageAmount > 0 && p.startDate < p.endDate
  }

  /** A claim is filed by its policy's farmer for at most the policy's coverage. */
  ghost predicate ClaimOk(l: Ledger, c: Claim, id: nat) {
    c.id == id && c.policyId in l.policies && 0 < c.claimAmount &&
    c.claimAmount <= l.policies[c.policyId].coverageAmount &&
    c.farmer == l.policies[c.policyId].farmer
  }

  /** The state right after deployment: the deployer is the insurer, both
      tables are empty and both counters start at 1. */
  function Init(deployer: Address): (l: Ledger)
    ensures Valid(l)
    ensures RoleOf(l.roles, deployer) == Insurer
    ensures forall a :: a != deployer ==> RoleOf(l.roles, a) == Farmer
    ensures l.policies == map[] && l.claims == map[]
    ensures l.nextPolicyId == 1 && l.nextClaimId == 1
  {
    Ledger(map[deployer := Insurer], map[], map[], 1, 1, 0, 0)
  }

  // ---------------------------------------------------------------------
  // assignRole

  function AssignRole(l: Ledger, caller: Address, who: Address, code: nat): (r: Result<Ledger>)
    ensures r.Success? <==> RoleOf(l.roles, caller) == Insurer && code < 3
    ensures code >= 3 ==> r == Failure(InvalidRoleCode)
    ensures code < 3 && RoleOf(l.roles, caller) != Insurer ==> r == Failure(Unauthorized)
    ensures r.Success? ==>
      RoleCode(RoleOf(r.value.roles, who)) == code &&
      (forall a :: a != who ==> RoleOf(r.value.roles, a) == RoleOf(l.roles, a)) &&
      r.value.(roles := l.roles) == l
    ensures r.Success? && Valid(l) ==> Valid(r.value)
  {
    match RoleFromCode(code)
    case None => Failure(InvalidRoleCode)
    case Some(role) =>
      if RoleOf(l.roles, caller) != Insurer then Failure(Unauthorized)
      else Success(l.(roles := l.roles[who := role]))
  }

  // ---------------------------------------------------------------------
  // purchasePolicy

  /** The premium owed for a coverage amount at a percentage rate, rounded down. */
  function Premium(coverage: nat, rate: nat): (p: nat)
    ensures p * 100 <= coverage * rate < p * 100 + 100
  {
    coverage * rate / 100
  }

  function PurchasePolicy(l: Ledger, caller: Address, coverage: nat, startDate: nat, endDate: nat,
                          paid: nat, rate: nat): (r: Result<(nat, Ledger)>)
    ensures r.Success? <==>
      RoleOf(l.roles, caller) == Farmer && coverage > 0 && startDate < endDate &&
      paid >= Premium(coverage, rate)
    ensures RoleOf(l.roles, caller) != Farmer ==> r == Failure(Unauthorized)
    ensures RoleOf(l.roles, caller) == Farmer && coverage == 0 ==> r == Failure(InvalidCoverageAmount)
    ensures RoleOf(l.roles, caller) == Farmer && coverage > 0 && startDate >= endDate ==>
      r == Failure(InvalidDates)
    ensures (RoleOf(l.roles, caller) == Farmer && coverage > 0 && startDate < endDate &&
             paid < Premium(coverage, rate)) ==> r == Failure(InsufficientPremium)
    ensures r.Success? ==>
      var (id, l') := r.value;
      id == l.nextPolicyId && l'.nextPolicyId == id + 1 &&
      id in l'.policies && l'.policies[id] == Policy(id, caller, coverage, startDate, endDate, true) &&
      (forall k :: k != id ==> (k in l'.policies <==> k in l.policies)) &&
      (forall k :: k in l.policies && k != id ==> l'.policies[k] == l.policies[k]) &&
      l'.premiumsCollected == l.premiumsCollected + paid &&
      l'.roles == l.roles && l'.claims == l.claims && l'.nextClaimId == l.nextClaimId &&
      l'.payoutsMade == l.payoutsMade
    ensures r.Success? && Valid(l) ==> r.value.0 !in l.policies && Valid(r.value.1)
  {
    if RoleOf(l.roles, caller) != Farmer then Failure(Unauthorized)
    else if coverage == 0 then Failure(InvalidCoverageAmount)
    else if startDate >= endDate then Failure(InvalidDates)
    else if paid < Premium(coverage, rate) then Failure(InsufficientPremium)
    else
      var id := l.nextPolicyId;
      Success((id, l.(policies := l.policies[id := Policy(id, caller, coverage, startDate, endDate, true)],
                      nextPolicyId := id + 1,
                      premiumsCollected := l.premiumsCollected + paid)))
  }

  // ---------------------------------------------------------------------
  // fileClaim

  /** Every guard of fileClaim that does not look at the amount. */
  predicate MayClaimOn(l: Ledger, caller: Address, policyId: nat) {
    policyId in l.policies && l.policies[policyId].isActive &&
    l.policies[policyId].farmer == caller && RoleOf(l.roles, caller) == Farmer
  }

  function FileClaim(l: Ledger, caller: Address, policyId: nat, amount: nat, reason: string)
    : (r: Result<(nat, Ledger)>)
    ensures r.Success? <==>
      MayClaimOn(l, caller, policyId) && 0 < amount <= l.policies[policyId].coverageAmount
    ensures policyId !in l.policies ==> r == Failure(NotFound)
    ensures policyId in l.policies && !l.policies[policyId].isActive ==> r == Failure(PolicyInactive)
    ensures (policyId in l.policies && l.policies[policyId].isActive &&
             (l.policies[policyId].farmer != caller || RoleOf(l.roles, caller) != Farmer)) ==>
      r == Failure(Unauthorized)
    ensures MayClaimOn(l, caller, policyId) && amount == 0 ==> r == Failure(InvalidClaimAmount)
    ensures MayClaimOn(l, caller, policyId) && amount > l.policies[policyId].coverageAmount ==>
      r == Failure(ClaimExceedsCoverage)
    ensures r.Success? ==>
      var (id, l') := r.value;
      id == l.nextClaimId && l'.nextClaimId == id + 1 &&
      id in l'.claims && l'.claims[id] == Claim(id, policyId, caller, amount, reason, Pending) &&
      (forall k :: k != id ==> (k in l'.claims <==> k in l.claims)) &&
      (forall k :: k in l.claims && k != id ==> l'.claims[k] == l.claims[k]) &&
      l'.roles == l.roles && l'.policies == l.policies && l'.nextPolicyId == l.nextPolicyId &&
      l'.premiumsCollected == l.premiumsCollected && l'.payoutsMade == l.payoutsMade
    ensures r.Success? && Valid(l) ==> r.value.0 !in l.claims && Valid(r.value.1)
  {
    if policyId !in l.policies then Failure(NotFound)
    else
      var p := l.policies[policyId];
      if !p.isActive then Failure(PolicyInactive)
      else if p.farmer != caller || RoleOf(l.roles, caller) != Farmer then Failure(Unauthorized)
      else if amount == 0 then Failure(InvalidClaimAmount)
      else if amount > p.coverageAmount then Failure(ClaimExceedsCoverage)
      else
        var id := l.nextClaimId;
        Success((id, l.(claims := l.claims[id := Claim(id, policyId, caller, amount, reason, Pending)],
                        nextClaimId := id + 1)))
  }

  // ---------------------------------------------------------------------
  // Claim resolution: approveClaim, rejectClaim, resolveDispute

  /** l' is l with only claim id's status set to s and `payout` more paid out. */
  ghost predicate StatusSet(l: Ledger, l': Ledger, id: nat, s: ClaimStatus, payout: nat)
    requires id in l.claims
  {
    l'.claims.Keys == l.claims.Keys && id in l'.claims &&
    l'.claims[id] == l.claims[id].(status := s) &&
    (forall k :: k in l.claims && k != id ==> l'.claims[k] == l.claims[k]) &&
    l'.payoutsMade == l.payoutsMade + payout &&
    l'.roles == l.roles && l'.policies == l.policies &&
    l'.nextPolicyId == l.nextPolicyId && l'.nextClaimId == l.nextClaimId &&
    l'.premiumsCollected == l.premiumsCollected
  }

  /** The ledger with claim id at status s; a payout releases the claim amount. */
  function WithStatus(l: Ledger, id: nat, s: ClaimStatus, pays: bool): (l': Ledger)
    requires id in l.claims
    ensures StatusSet(l, l', id, s, if pays then l.claims[id].claimAmount else 0)
    ensures Valid(l) ==> Valid(l')
  {
    var c := l.claims[id];
    l.(claims := l.claims[id := c.(status := s)],
       payoutsMade := if pays then l.payoutsMade + c.claimAmount else l.payoutsMade)
  }

  function ApproveClaim(l: Ledger, caller: Address, id: nat): (r: Result<Ledger>)
    ensures r.Success? <==>
      RoleOf(l.roles, caller) == Insurer && id in l.claims && l.claims[id].status == Pending
    ensures RoleOf(l.roles, caller) != Insurer ==> r == Failure(Unauthorized)
    ensures RoleOf(l.roles, caller) == Insurer && id !in l.claims ==> r == Failure(NotFound)
    ensures RoleOf(l.roles, caller) == Insurer && id in l.claims && l.claims[id].status != Pending ==>
      r == Failure(ClaimNotPending)
    ensures r.Success? ==> StatusSet(l, r.value, id, Approved, l.claims[id].claimAmount)
    ensures r.Success? && Valid(l) ==> Valid(r.value)
  {
    if RoleOf(l.roles, caller) != Insurer then Failure(Unauthorized)
    else if id !in l.claims then Failure(NotFound)
    else if l.claims[id].status != Pending then Failure(ClaimNotPending)
    else Success(WithStatus(l, id, Approved, true))
  }

  function RejectClaim(l: Ledger, caller: Address, id: nat): (r: Result<Ledger>)
    ensures r.Success? <==>
      RoleOf(l.roles, caller) == Insurer && id in l.claims && l.claims[id].status == Pending
    ensures RoleOf(l.roles, caller) != Insurer ==> r == Failure(Unauthorized)
    ensures RoleOf(l.roles, caller) == Insurer && id !in l.claims ==> r == Failure(NotFound)
    ensures RoleOf(l.roles, caller) == Insurer && id in l.claims && l.claims[id].status != Pending ==>
      r == Failure(ClaimNotPending)
    ensures r.Success? ==> StatusSet(l, r.value, id, Rejected, 0)
    ensures r.Success? && Valid(l) ==> Valid(r.value)
  {
    if RoleOf(l.roles, caller) != Insurer then Failure(Unauthorized)
    else if id !in l.claims then Failure(NotFound)
    else if l.claims[id].status != Pending then Failure(ClaimNotPending)
    else Success(WithStatus(l, id, Rejected, false))
  }

  /** The auditor's ruling on a rejected claim. The guard asks for Rejected,
      yet the revert reason is the same "Claim is not pending". */
  function ResolveDispute(l: Ledger, caller: Address, id: nat, favored: bool): (r: Result<Ledger>)
    ensures r.Success? <==>
      RoleOf(l.roles, caller) == Auditor && id in l.claims && l.claims[id].status == Rejected
    ensures RoleOf(l.roles, caller) != Auditor ==> r == Failure(Unauthorized)
    ensures RoleOf(l.roles, caller) == Auditor && id !in l.claims ==> r == Failure(NotFound)
    ensures RoleOf(l.roles, caller) == Auditor && id in l.claims && l.claims[id].status != Rejected ==>
      r == Failure(ClaimNotPending)
    ensures r.Success? && favored ==> StatusSet(l, r.value, id, Approved, l.claims[id].claimAmount)
    ensures r.Success? && !favored ==> r.value == l
    ensures r.Success? && Valid(l) ==> Valid(r.value)
  {
    if RoleOf(l.roles, caller) != Auditor then Failure(Unauthorized)
    else if id !in l.claims then Failure(NotFound)
    else if l.claims[id].status != Rejected then Failure(ClaimNotPending)
    else if favored then Success(WithStatus(l, id, Approved, true))
    else Success(l)
  }
}
