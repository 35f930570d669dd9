/**
 * The slash-command handlers of the JSON-file version, with the Discord
 * replies reduced to a tagged outcome and the nickname and role display
 * left out. Each handler receives the current time `now` in milliseconds.
 */
module Bot {
  import opened Wrappers
  import opened Decimal
  import opened JsonStore

  datatype VerifyReply = AlreadyVerified(robloxUsername: string) | Started(code: string)
  datatype ConfirmReply = InvalidCode | NotYourCode | Verified(robloxUsername: string)
  datatype LogoutReply = NotVerified | LoggedOut(robloxUsername: string)

  /** The placeholder Roblox id stored by a successful `/confirm`. */
  const SimulatedIdPrefix: string := "SIMULATED_ID_"

  /** `m` holds an entry for `id` whose code is `code`. */
  predicate HoldsCode(m: map<string, Pending>, id: string, code: string) {
    id in m && m[id].code == code
  }

  /**
   * `generateCode`: floor(1000 + random * 9000) as a string, i.e. the
   * numeral of some integer in [1000, 9999]; always four digits.
   */
  method GenerateCode() returns (code: string)
    ensures |code| == 4 && AllDigits(code)
    ensures 1000 <= FromDecimal(code) <= 9999
  {
    var n: nat :| 1000 <= n <= 9999;
    code := ToDecimal(n);
    assert Pow10(1) == 10 && Pow10(2) == 100 && Pow10(3) == 1000 && Pow10(4) == 10000;
    ToDecimalWidth(n, 4);
    FromToDecimal(n);
  }

  /**
   * The `for...in` scan of `/confirm`: visits the pending ids in some order
   * and stops at the first whose code equals `code`.
   */
  method FindByCode(pending: map<string, Pending>, code: string) returns (found: Option<string>)
    ensures found.Some? ==> HoldsCode(pending, found.value, code)
    ensures found.None? ==> forall id :: id in pending ==> !HoldsCode(pending, id, code)
  {
    var unvisited := pending.Keys;
    while unvisited != {}
      invariant unvisited <= pending.Keys
      invariant forall id :: id in pending && id !in unvisited ==> !HoldsCode(pending, id, code)
      decreases unvisited
    {
      var id :| id in unvisited;
      if pending[id].code == code {
        return Some(id);
      }
      unvisited := unvisited - {id};
    }
    return None;
  }

  /**
   * `/verify username`: refused for a linked id (nothing changes); otherwise
   * sweep expired entries and store a fresh code for the caller, replacing
   * any earlier one.
   */
  method HandleVerify(store: Store, discordId: string, username: string, now: int) returns (r: VerifyReply)
    modifies store
    ensures discordId in old(store.users) ==>
      && r == AlreadyVerified(old(store.users)[discordId].robloxUsername)
      && store.users == old(store.users)
      && store.pendingVerifications == old(store.pendingVerifications)
    ensures discordId !in old(store.users) ==>
      && r.Started? && |r.code| == 4 && AllDigits(r.code)
      && store.users == old(store.users)
      && store.pendingVerifications == Live(old(store.pendingVerifications), now)[discordId := Pending(r.code, username, now)]
    ensures old(store.Disjoint()) ==> store.Disjoint()
  {
    var existing := store.GetUser(discordId);
    if existing.Some? {
      return AlreadyVerified(existing.value.robloxUsername);
    }
    store.CleanupExpiredVerifications(now);
    var code := GenerateCode();
    store.SetPendingVerification(discordId, Pending(code, username, now));
    r := Started(code);
  }

  /**
   * `/confirm code`: sweep, then find the first live entry with this code.
   * No entry: InvalidCode (an expired code was swept and lands here too).
   * Someone else's entry: NotYourCode. Otherwise the caller is linked to the
   * username of its entry, with a placeholder Roblox id, and the entry is
   * removed. Only the sweep changes state on a failure.
   */
  method HandleConfirm(store: Store, discordId: string, code: string, now: int) returns (r: ConfirmReply)
    modifies store
    ensures r.Verified? ==>
      var live := Live(old(store.pendingVerifications), now);
      && HoldsCode(live, discordId, code)
      && now - old(store.pendingVerifications)[discordId].createdAt <= ExpirationMs
      && r.robloxUsername == live[discordId].robloxUsername
      && store.users == old(store.users)[discordId := Link(live[discordId].robloxUsername, SimulatedIdPrefix + discordId, now)]
      && store.pendingVerifications == live - {discordId}
    ensures !r.Verified? ==>
      && store.users == old(store.users)
      && store.pendingVerifications == Live(old(store.pendingVerifications), now)
    ensures r == InvalidCode <==>
      forall id :: id in Live(old(store.pendingVerifications), now) ==> !HoldsCode(Live(old(store.pendingVerifications), now), id, code)
    ensures r == NotYourCode ==>
      exists id :: id != discordId && HoldsCode(Live(old(store.pendingVerifications), now), id, code)
    ensures HoldsCode(Live(old(store.pendingVerifications), now), discordId, code) &&
            (forall id :: id != discordId ==> !HoldsCode(Live(old(store.pendingVerifications), now), id, code))
            ==> r.Verified?
    ensures old(store.Disjoint()) ==> store.Disjoint()
  {
    store.CleanupExpiredVerifications(now);
    var found := FindByCode(store.pendingVerifications, code);
    if found.None? {
      return InvalidCode;
    }
    if found.value != discordId {
      return NotYourCode;
    }
    var entry := store.pendingVerifications[discordId];
    store.SetUser(discordId, Link(entry.robloxUsername, SimulatedIdPrefix + discordId, now));
    store.RemovePendingVerification(discordId);
    r := Verified(entry.robloxUsername);
  }

  /** `/logout`: an unlinked caller changes nothing; a linked one loses only its link. */
  method HandleLogout(store: Store, discordId: string) returns (r: LogoutReply)
    modifies store
    ensures discordId !in old(store.users) ==>
      r == NotVerified && store.users == old(store.users)
    ensures discordId in old(store.users) ==>
      r == LoggedOut(old(store.users)[discordId].robloxUsername) && store.users == old(store.users) - {discordId}
    ensures store.pendingVerifications == old(store.pendingVerifications)
    ensures old(store.Disjoint()) ==> store.Disjoint()
  {
    var user := store.GetUser(discordId);
    if user.None? {
      return NotVerified;
    }
    store.RemoveUser(discordId);
    r := LoggedOut(user.value.robloxUsername);
  }
}
