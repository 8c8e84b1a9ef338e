/** The Proof-of-Existence pallet: a map from claimed content to the account
    that claimed it. Each content has at most one owner, and only that owner can
    release it. */
module ProofOfExistence {
  import opened Support

  const ClaimAlreadyExists: string := "Claim already exists"
  const ClaimDoesNotExist: string := "Claim does noe exist"
  const NotClaimOwner: string := "Caller is not the owner of the claim"

  class Pallet<AccountId(==), Content(==,!new)> {
    var claims: map<Content, AccountId>

    /** `new`: nothing is claimed. */
    constructor ()
      ensures claims == map[]
      ensures forall c :: GetClaim(c) == None
    {
      claims := map[];
    }

    /** `get_claim`: the owner of `claim`, if anyone has claimed it. */
    function GetClaim(claim: Content): (owner: Option<AccountId>)
      reads this
      ensures owner.Some? <==> claim in claims
      ensures owner.Some? ==> owner.value == claims[claim]
    {
      if claim in claims then Some(claims[claim]) else None
    }

    /** `create_claim`: records `caller` as owner of unclaimed content; content
        that is already claimed, by anyone including `caller`, is left as it is. */
    method CreateClaim(caller: AccountId, claim: Content) returns (r: DispatchResult)
      modifies this
      ensures r.Ok? <==> old(GetClaim(claim)).None?
      ensures old(GetClaim(claim)).Some? ==> r == Err(ClaimAlreadyExists) && claims == old(claims)
      ensures old(GetClaim(claim)).None? ==> r == Ok && claims == old(claims)[claim := caller]
      ensures r.Ok? ==> GetClaim(claim) == Some(caller)
      ensures old(GetClaim(claim)).Some? ==> GetClaim(claim) == old(GetClaim(claim))
      ensures forall c :: c != claim ==> GetClaim(c) == old(GetClaim(c))
    {
      match GetClaim(claim)
      case Some(_) =>
        r := Err(ClaimAlreadyExists);
      case None =>
        claims := claims[claim := caller];
        r := Ok;
    }

    /** `revoke_claim`: removes the claim when `caller` owns it. A missing claim is
        reported before ownership is looked at; a failure changes nothing. */
    method RevokeClaim(caller: AccountId, claim: Content) returns (r: DispatchResult)
      modifies this
      ensures r.Ok? <==> old(GetClaim(claim)) == Some(caller)
      ensures old(GetClaim(claim)).None? ==> r == Err(ClaimDoesNotExist) && claims == old(claims)
      ensures old(GetClaim(claim)).Some? && old(GetClaim(claim)).value != caller ==>
                r == Err(NotClaimOwner) && claims == old(claims)
      ensures old(GetClaim(claim)) == Some(caller) ==> r == Ok && claims == old(claims) - {claim}
      ensures r.Ok? ==> GetClaim(claim) == None
      ensures forall c :: c != claim ==> GetClaim(c) == old(GetClaim(c))
    {
      var owner := GetClaim(claim);
      if owner.None? {
        return Err(ClaimDoesNotExist);
      }
      if owner.value != caller {
        return Err(NotClaimOwner);
      }
      claims := claims - {claim};
      r := Ok;
    }
  }

  /** Revoking a claim just created by the same caller restores the previous claims. */
  method CreateThenRevoke<AccountId(==), Content(==,!new)>(p: Pallet<AccountId, Content>, caller: AccountId, claim: Content)
      returns (created: DispatchResult, revoked: DispatchResult)
    requires p.GetClaim(claim).None?
    modifies p
    ensures created == Ok && revoked == Ok
    ensures p.claims == old(p.claims)
  {
    created := p.CreateClaim(caller, claim);
    revoked := p.RevokeClaim(caller, claim);
  }

  /** The unit test of the pallet: alice claims a document; bob can neither
      revoke it nor claim it again; alice revokes it and it is unclaimed. */
  method BasicProofOfExistence()
      returns (aliceOwner: Option<string>, bobRevoke: DispatchResult, bobCreate: DispatchResult,
               aliceRevoke: DispatchResult, finalOwner: Option<string>)
    ensures aliceOwner == Some("alice")
    ensures bobRevoke == Err(NotClaimOwner)
    ensures bobCreate == Err(ClaimAlreadyExists)
    ensures aliceRevoke == Ok
    ensures finalOwner == None
  {
    var poe := new Pallet<string, string>();
    var _ := poe.CreateClaim("alice", "my_document");
    aliceOwner := poe.GetClaim("my_document");
    bobRevoke := poe.RevokeClaim("bob", "my_document");
    bobCreate := poe.CreateClaim("bob", "my_document");
    aliceRevoke := poe.RevokeClaim("alice", "my_document");
    finalOwner := poe.GetClaim("my_document");
  }
}
