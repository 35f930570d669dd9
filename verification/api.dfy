/**
 * The decision logic of the HTTP endpoints the Roblox game calls, over the
 * same store as the bot. A request-body field is None when it is missing.
 */
module Api {
  import opened Wrappers
  import opened JsonStore

  datatype Response =
    | BadRequest                                                      // 400
    | NotFound                                                        // 404
    | CodeIssued(code: string, createdAt: int)                        // get-code
    | UserVerified                                                    // verify-user
    | IsVerified(robloxUsername: string, robloxId: string, verifiedAt: int)  // is-verified

  /** `POST /api/get-code`: the caller's pending code and its creation time; read-only. */
  function GetCode(store: Store, discordId: Option<string>): (r: Response)
    reads store
    ensures r == BadRequest <==> !Truthy(discordId)
    ensures Truthy(discordId) ==> (r == NotFound <==> discordId.value !in store.pendingVerifications)
    ensures r.CodeIssued? ==>
      && discordId.Some? && discordId.value in store.pendingVerifications
      && r.code == store.pendingVerifications[discordId.value].code
      && r.createdAt == store.pendingVerifications[discordId.value].createdAt
    ensures Truthy(discordId) && discordId.value in store.pendingVerifications ==>
      r == CodeIssued(store.pendingVerifications[discordId.value].code, store.pendingVerifications[discordId.value].createdAt)
  {
    if !Truthy(discordId) then BadRequest
    else
      match store.GetPendingVerification(discordId.value)
      case None => NotFound
      case Some(p) => CodeIssued(p.code, p.createdAt)
  }

  /**
   * `POST /api/verify-user`: the game server vouches for the user. With all
   * three fields present and a pending entry for the id, the supplied
   * username and id become the link and the entry is removed; no code is
   * compared and an existing link is overwritten.
   */
  method VerifyUser(store: Store, discordId: Option<string>, robloxUsername: Option<string>, robloxId: Option<string>, now: int)
    returns (r: Response)
    modifies store
    ensures r == BadRequest <==> !Truthy(discordId) || !Truthy(robloxUsername) || !Truthy(robloxId)
    ensures r == NotFound <==>
      Truthy(discordId) && Truthy(robloxUsername) && Truthy(robloxId) && discordId.value !in old(store.pendingVerifications)
    ensures r != UserVerified ==>
      store.users == old(store.users) && store.pendingVerifications == old(store.pendingVerifications)
    ensures r == UserVerified ==>
      && discordId.value in old(store.pendingVerifications)
      && store.users == old(store.users)[discordId.value := Link(robloxUsername.value, robloxId.value, now)]
      && store.pendingVerifications == old(store.pendingVerifications) - {discordId.value}
    ensures r in {BadRequest, NotFound, UserVerified}
    ensures old(store.Disjoint()) ==> store.Disjoint()
  {
    if !Truthy(discordId) || !Truthy(robloxUsername) || !Truthy(robloxId) {
      return BadRequest;
    }
    var pending := store.GetPendingVerification(discordId.value);
    if pending.None? {
      return NotFound;
    }
    store.SetUser(discordId.value, Link(robloxUsername.value, robloxId.value, now));
    store.RemovePendingVerification(discordId.value);
    r := UserVerified;
  }

  /** `GET /api/is-verified/:discordId`: the stored link fields, or 404; read-only. */
  function IsVerifiedLookup(store: Store, discordId: string): (r: Response)
    reads store
    ensures r == BadRequest <==> discordId == ""
    ensures discordId != "" ==> (r == NotFound <==> discordId !in store.users)
    ensures r.IsVerified? ==>
      discordId in store.users &&
      store.users[discordId] == Link(r.robloxUsername, r.robloxId, r.verifiedAt)
    ensures discordId != "" && discordId in store.users ==>
      r == IsVerified(store.users[discordId].robloxUsername, store.users[discordId].robloxId, store.users[discordId].verifiedAt)
  {
    if discordId == "" then BadRequest
    else
      match store.GetUser(discordId)
      case None => NotFound
      case Some(link) => IsVerified(link.robloxUsername, link.robloxId, link.verifiedAt)
  }
}
