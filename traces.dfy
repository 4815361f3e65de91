/** Sequences of contract calls, executed one after another as the chain
    executes transactions, and what holds over every such sequence: the
    ledger invariant, the claim state machine, and the immutability of what
    was recorded. */
module Traces {
  import opened Insurance

  /** One transaction against the contract, with its caller. */
  datatype Call =
    | AssignRoleCall(caller: Address, who: Address, code: nat)
    | PurchasePolicyCall(caller: Address, coverage: nat, startDate: nat, endDate: nat, paid: nat, rate: nat)
    | FileClaimCall(caller: Address, policyId: nat, amount: nat, reason: string)
    | ApproveClaimCall(caller: Address, id: nat)
    | RejectClaimCall(caller: Address, id: nat)
    | ResolveDisputeCall(caller: Address, id: nat, favored: bool)

  /** The error a call reverts with, if it reverts. */
  function Outcome(l: Ledger, c: Call): Option<Error> {
    match c
    case AssignRoleCall(caller, who, code) =>
      var r := AssignRole(l, caller, who, code); if r.Failure? then Some(r.error) else None
    case PurchasePolicyCall(caller, cov, s, e, paid, rate) =>
      var r := PurchasePolicy(l, caller, cov, s, e, paid, rate); if r.Failure? then Some(r.error) else None
    case FileClaimCall(caller, pid, amount, reason) =>
      var r := FileClaim(l, caller, pid, amount, reason); if r.Failure? then Some(r.error) else None
    case ApproveClaimCall(caller, id) =>
      var r := ApproveClaim(l, caller, id); if r.Failure? then Some(r.error) else None
    case RejectClaimCall(caller, id) =>
      var r := RejectClaim(l, caller, id); if r.Failure? then Some(r.error) else None
    case ResolveDisputeCall(caller, id, favored) =>
      var r := ResolveDispute(l, caller, id, favored); if r.Failure? then Some(r.error) else None
  }

  /** The ledger after one call; a reverted call leaves it as it was. */
  function Exec(l: Ledger, c: Call): (l': Ledger)
    ensures Outcome(l, c).Some? ==> l' == l
    ensures Valid(l) ==> Valid(l')
  {
    match c
    case AssignRoleCall(caller, who, code) =>
      var r := AssignRole(l, caller, who, code); if r.Success? then r.value else l
    case PurchasePolicyCall(caller, cov, s, e, paid, rate) =>
      var r := PurchasePolicy(l, caller, cov, s, e, paid, rate); if r.Success? then r.value.1 else l
    case FileClaimCall(caller, pid, amount, reason) =>
      var r := FileClaim(l, caller, pid, amount, reason); if r.Success? then r.value.1 else l
    case ApproveClaimCall(caller, id) =>
      var r := ApproveClaim(l, caller, id); if r.Success? then r.value else l
    case RejectClaimCall(caller, id) =>
      var r := RejectClaim(l, caller, id); if r.Success? then r.value else l
    case ResolveDisputeCall(caller, id, favored) =>
      var r := ResolveDispute(l, caller, id, favored); if r.Success? then r.value else l
  }

  /** The ledger after a whole sequence of calls. */
  function Run(l: Ledger, calls: seq<Call>): Ledger
    decreases |calls|
  {
    if calls == [] then l else Run(Exec(l, calls[0]), calls[1..])
  }

  /** What one call does to an existing claim: nothing but a legal status step. */
  lemma ExecKeepsClaim(l: Ledger, c: Call, id: nat)
    requires Valid(l) && id in l.claims
    ensures id in Exec(l, c).claims
    ensures Exec(l, c).claims[id] == l.claims[id].(status := Exec(l, c).claims[id].status)
    ensures var s := Exec(l, c).claims[id].status;
      s == l.claims[id].status || Transition(l.claims[id].status, s)
  {
  }

  /** Every ledger reachable from a valid one is valid. */
  lemma {:induction false} RunPreservesValid(l: Ledger, calls: seq<Call>)
    requires Valid(l)
    ensures Valid(Run(l, calls))
    decreases |calls|
  {
    if calls != [] {
      RunPreservesValid(Exec(l, calls[0]), calls[1..]);
    }
  }

  /** Every ledger reachable from deployment is valid. */
  lemma DeployedRunValid(deployer: Address, calls: seq<Call>)
    ensures Valid(Run(Init(deployer), calls))
  {
    RunPreservesValid(Init(deployer), calls);
  }

  /** Once filed, a claim stays, its policy, farmer, amount and reason never
      change, and its status only moves along the state machine: a claim
      never returns to Pending and an Approved claim stays Approved. */
  lemma {:induction false} ClaimEvolution(l: Ledger, calls: seq<Call>, id: nat)
    requires Valid(l) && id in l.claims
    ensures id in Run(l, calls).claims
    ensures Run(l, calls).claims[id] == l.claims[id].(status := Run(l, calls).claims[id].status)
    ensures Reachable(l.claims[id].status, Run(l, calls).claims[id].status)
    decreases |calls|
  {
    if calls != [] {
      ExecKeepsClaim(l, calls[0], id);
      ClaimEvolution(Exec(l, calls[0]), calls[1..], id);
    }
  }

  /** Approved is terminal: no sequence of calls changes an approved claim. */
  lemma ApprovedIsTerminal(l: Ledger, calls: seq<Call>, id: nat)
    requires Valid(l) && id in l.claims && l.claims[id].status == Approved
    ensures id in Run(l, calls).claims && Run(l, calls).claims[id] == l.claims[id]
  {
    ClaimEvolution(l, calls, id);
  }

  /** A recorded policy never changes and ids are never reused. */
  lemma {:induction false} PoliciesImmutable(l: Ledger, calls: seq<Call>, id: nat)
    requires Valid(l) && id in l.policies
    ensures id in Run(l, calls).policies && Run(l, calls).policies[id] == l.policies[id]
    ensures l.nextPolicyId <= Run(l, calls).nextPolicyId
    ensures l.nextClaimId <= Run(l, calls).nextClaimId
    decreases |calls|
  {
    if calls != [] {
      PoliciesImmutable(Exec(l, calls[0]), calls[1..], id);
    }
  }

  /** A call that reverts changes nothing, so repeating it reverts again with
      the same error and still changes nothing. */
  lemma FailedCallRepeats(l: Ledger, c: Call)
    requires Outcome(l, c).Some?
    ensures Run(l, [c, c]) == l
    ensures Outcome(Exec(l, c), c) == Outcome(l, c)
  {
    assert [c, c][1..] == [c] && [c][1..] == [];
    assert Run(l, [c, c]) == Run(Exec(l, c), [c]);
  }

  /** On one ledger: a claim that is not Pending refuses the insurer's approve
      and reject, and one that is not Rejected refuses the auditor's ruling. */
  lemma NotPendingRefused(l: Ledger, id: nat, caller: Address, favored: bool)
    requires id in l.claims
    ensures RoleOf(l.roles, caller) == Insurer && l.claims[id].status != Pending ==>
      Outcome(l, ApproveClaimCall(caller, id)) == Some(ClaimNotPending) &&
      Outcome(l, RejectClaimCall(caller, id)) == Some(ClaimNotPending)
    ensures RoleOf(l.roles, caller) == Auditor && l.claims[id].status != Rejected ==>
      Outcome(l, ResolveDisputeCall(caller, id, favored)) == Some(ClaimNotPending)
  {
  }

  /** Once Approved, a claim refuses approve, reject and dispute alike, with
      "Claim is not pending", whatever happened in between. */
  lemma ApprovedRefusesResolution(l: Ledger, calls: seq<Call>, id: nat, caller: Address, favored: bool)
    requires Valid(l) && id in l.claims && l.claims[id].status == Approved
    ensures var l' := Run(l, calls);
      (RoleOf(l'.roles, caller) == Insurer ==>
         Outcome(l', ApproveClaimCall(caller, id)) == Some(ClaimNotPending) &&
         Outcome(l', RejectClaimCall(caller, id)) == Some(ClaimNotPending)) &&
      (RoleOf(l'.roles, caller) == Auditor ==>
         Outcome(l', ResolveDisputeCall(caller, id, favored)) == Some(ClaimNotPending))
  {
    ApprovedIsTerminal(l, calls, id);
    NotPendingRefused(Run(l, calls), id, caller, favored);
  }

  /** A rejected claim, whatever happens afterwards, is never Pending again,
      so the insurer's approve and reject both refuse it with ClaimNotPending. */
  lemma RejectedRefusesResolution(l: Ledger, calls: seq<Call>, id: nat, caller: Address)
    requires Valid(l) && id in l.claims && l.claims[id].status == Rejected
    ensures var l' := Run(l, calls);
      id in l'.claims && l'.claims[id].status != Pending &&
      (RoleOf(l'.roles, caller) == Insurer ==>
         Outcome(l', ApproveClaimCall(caller, id)) == Some(ClaimNotPending) &&
         Outcome(l', RejectClaimCall(caller, id)) == Some(ClaimNotPending))
  {
    ClaimEvolution(l, calls, id);
    NotPendingRefused(Run(l, calls), id, caller, false);
  }
}
