/**
 * Client scenarios over fresh stores: each runs the handlers in sequence
 * and its postcondition states what any run must end with, whatever codes
 * are drawn.
 */
module Scenarios {
  import opened Wrappers
  import opened JsonStore
  import opened Bot
  import opened Api
  import MongoBot

  /** `/verify` then `/confirm` with the issued code before expiry links the caller to the claimed username. */
  method VerifyThenConfirm(id: string, username: string, t0: int, t1: int)
    returns (started: VerifyReply, confirmed: ConfirmReply, lookup: Response)
    requires id != "" && t0 <= t1 <= t0 + ExpirationMs
    ensures started.Started? && confirmed == Verified(username)
    ensures lookup == IsVerified(username, SimulatedIdPrefix + id, t1)
  {
    var store := new Store();
    started := HandleVerify(store, id, username, t0);
    confirmed := HandleConfirm(store, id, started.code, t1);
    lookup := IsVerifiedLookup(store, id);
  }

  /** A code issued to one user is refused to another, and the owner can still use it. */
  method ConfirmOthersCode(owner: string, other: string, username: string, t0: int, t1: int)
    returns (stolen: ConfirmReply, own: ConfirmReply)
    requires owner != other && t0 <= t1 <= t0 + ExpirationMs
    ensures stolen == NotYourCode
    ensures own == Verified(username)
  {
    var store := new Store();
    var started := HandleVerify(store, owner, username, t0);
    stolen := HandleConfirm(store, other, started.code, t1);
    own := HandleConfirm(store, owner, started.code, t1);
  }

  /** With nothing pending every code is invalid. */
  method ConfirmWithoutPending(id: string, code: string, now: int) returns (r: ConfirmReply)
    ensures r == InvalidCode
  {
    var store := new Store();
    r := HandleConfirm(store, id, code, now);
  }

  /** Once the window has passed the code is swept and reported as invalid; nothing remains pending. */
  method ConfirmAfterExpiry(id: string, username: string, t0: int, t1: int)
    returns (r: ConfirmReply, remaining: map<string, Pending>)
    requires t1 > t0 + ExpirationMs
    ensures r == InvalidCode
    ensures remaining == map[]
  {
    var store := new Store();
    var started := HandleVerify(store, id, username, t0);
    r := HandleConfirm(store, id, started.code, t1);
    remaining := store.pendingVerifications;
  }

  /** `/logout` without a link is refused. */
  method LogoutUnlinked(id: string) returns (r: LogoutReply)
    ensures r == NotVerified
  {
    var store := new Store();
    r := HandleLogout(store, id);
  }

  /** A second `/verify` replaces the first code: the first works afterwards only if the draw repeated it. */
  method RestartVerification(id: string, username: string, t0: int, t1: int, t2: int)
    returns (first: VerifyReply, second: VerifyReply, r: ConfirmReply)
    requires t0 <= t1 <= t2 <= t1 + ExpirationMs
    ensures first.Started? && second.Started?
    ensures first.code != second.code ==> r == InvalidCode
    ensures first.code == second.code ==> r == Verified(username)
  {
    var store := new Store();
    first := HandleVerify(store, id, username, t0);
    second := HandleVerify(store, id, username, t1);
    r := HandleConfirm(store, id, first.code, t2);
  }

  /** The game reads over HTTP the code that `/verify` issued. */
  method GetCodeAfterVerify(id: string, username: string, now: int) returns (started: VerifyReply, fetched: Response)
    requires id != ""
    ensures started.Started? && fetched == CodeIssued(started.code, now)
  {
    var store := new Store();
    started := HandleVerify(store, id, username, now);
    fetched := GetCode(store, Some(id));
  }

  /** `verify-user` links a pending user to the supplied Roblox account with no code; `is-verified` then reports it. */
  method VerifyUserThenLookup(id: string, username: string, robloxName: string, robloxId: string, t0: int, t1: int)
    returns (vouched: Response, lookup: Response)
    requires id != "" && robloxName != "" && robloxId != ""
    ensures vouched == UserVerified
    ensures lookup == IsVerified(robloxName, robloxId, t1)
  {
    var store := new Store();
    var _ := HandleVerify(store, id, username, t0);
    vouched := VerifyUser(store, Some(id), Some(robloxName), Some(robloxId), t1);
    lookup := IsVerifiedLookup(store, id);
  }

  /** Mongo version: the code relayed back by DM, with surrounding white space, verifies the user and exposes its perks. */
  method MongoVerifyThenDm(id: string, robloxName: string, robloxId: string, roles: seq<string>, now: int)
    returns (sent: MongoBot.VerifyReply, dm: MongoBot.DmReply, perks: MongoBot.RolesLookup)
    ensures sent.CodeSent? && |sent.code| == 6
    ensures dm == MongoBot.Linked(robloxName)
    ensures perks == MongoBot.Roles(MongoBot.PerksOf(roles))
  {
    var users := new MongoBot.UserCollection();
    sent := users.HandleVerifyCommand(id, robloxName, MongoBot.Resolved(robloxId), now);
    assert MongoBot.Trim(" " + sent.code + "\n") == sent.code by {
      TrimPadded(sent.code);
    }
    dm := users.HandleDirectMessage(true, id, " " + sent.code + "\n", Some(roles));
    perks := users.GetRoles(robloxId);
  }

  /** A string of digits padded by one space and one newline trims back to itself. */
  lemma TrimPadded(code: string)
    requires Decimal.AllDigits(code) && |code| >= 1
    ensures MongoBot.Trim(" " + code + "\n") == code
  {
    var s := " " + code + "\n";
    assert s[1..][0] == code[0];
    assert MongoBot.LeadingSpace(s[1..]) == 0;
    assert MongoBot.LeadingSpace(s) == 1;
    var rest := s[1..];
    assert rest == code + "\n";
    assert rest[..|rest| - 1] == code;
    assert MongoBot.TrailingSpace(code) == 0;
    assert MongoBot.TrailingSpace(rest) == 1;
  }
}
