/**
 * The single-file MongoDB version: one record per Discord user carrying a
 * pending `verificationCode` and an `isVerified` flag, plus role-derived
 * perks. The collection is a map keyed by `discordId` (a unique index);
 * the Roblox username lookup and the Discord guild/member fetch are inputs.
 */
module MongoBot {
  import opened Wrappers
  import opened Decimal

  datatype Perk = Admin | Vip | Booster
  datatype Perks = Perks(isAdmin: bool, isVIP: bool, isBooster: bool)

  /** The schema default for perks: every flag false. */
  const NoPerks: Perks := Perks(false, false, false)

  /** `ROLE_MAP`: the three Discord role ids that carry a perk. */
  function RoleMap(roleId: string): Option<Perk> {
    if roleId == "111111111111111111" then Some(Admin)
    else if roleId == "222222222222222222" then Some(Vip)
    else if roleId == "333333333333333333" then Some(Booster)
    else None
  }

  function Has(perks: Perks, perk: Perk): bool {
    match perk
    case Admin => perks.isAdmin
    case Vip => perks.isVIP
    case Booster => perks.isBooster
  }

  /** `perks[flag] = true`. */
  function Grant(perks: Perks, perk: Perk): (r: Perks)
    ensures Has(r, perk)
    ensures forall q :: q != perk ==> Has(r, q) == Has(perks, q)
  {
    match perk
    case Admin => perks.(isAdmin := true)
    case Vip => perks.(isVIP := true)
    case Booster => perks.(isBooster := true)
  }

  /** Some role of the member maps to `perk`. */
  predicate Grants(roles: seq<string>, perk: Perk) {
    exists i :: 0 <= i < |roles| && RoleMap(roles[i]) == Some(perk)
  }

  /** The perks a member with these roles should have. */
  function PerksOf(roles: seq<string>): Perks {
    Perks(Grants(roles, Admin), Grants(roles, Vip), Grants(roles, Booster))
  }

  /** One more role: its perk (if any) is added to the perks of the others. */
  lemma PerksOfSnoc(roles: seq<string>, role: string)
    ensures PerksOf(roles + [role]) == if RoleMap(role).Some? then Grant(PerksOf(roles), RoleMap(role).value) else PerksOf(roles)
  {
    var s := roles + [role];
    forall perk | true
      ensures Grants(s, perk) <==> Grants(roles, perk) || RoleMap(role) == Some(perk)
    {
      if Grants(roles, perk) {
        var i :| 0 <= i < |roles| && RoleMap(roles[i]) == Some(perk);
        assert s[i] == roles[i];
      }
      if RoleMap(role) == Some(perk) {
        assert s[|roles|] == role;
      }
      if Grants(s, perk) {
        var i :| 0 <= i < |s| && RoleMap(s[i]) == Some(perk);
        if i < |roles| {
          assert roles[i] == s[i];
        }
      }
    }
    if RoleMap(role).Some? {
      var g := Grant(PerksOf(roles), RoleMap(role).value);
      assert Has(PerksOf(s), Admin) == Has(g, Admin);
      assert Has(PerksOf(s), Vip) == Has(g, Vip);
      assert Has(PerksOf(s), Booster) == Has(g, Booster);
    }
  }

  /** With no roles every flag is false. */
  lemma PerksOfNoRoles()
    ensures PerksOf([]) == NoPerks
  {
  }

  /** A role id absent from `ROLE_MAP` changes nothing. */
  lemma PerksIgnoreUnmapped(roles: seq<string>, role: string)
    requires RoleMap(role).None?
    ensures PerksOf(roles + [role]) == PerksOf(roles)
  {
    PerksOfSnoc(roles, role);
  }

  /** The perks depend only on which roles the member has, not on their order or repetition. */
  lemma PerksOrderIndependent(a: seq<string>, b: seq<string>)
    requires forall role :: role in a <==> role in b
    ensures PerksOf(a) == PerksOf(b)
  {
    forall perk | true
      ensures Grants(a, perk) <==> Grants(b, perk)
    {
      if Grants(a, perk) {
        var i :| 0 <= i < |a| && RoleMap(a[i]) == Some(perk);
        assert a[i] in b;
      }
      if Grants(b, perk) {
        var j :| 0 <= j < |b| && RoleMap(b[j]) == Some(perk);
        assert b[j] in a;
      }
    }
    assert Has(PerksOf(a), Admin) == Has(PerksOf(b), Admin);
    assert Has(PerksOf(a), Vip) == Has(PerksOf(b), Vip);
    assert Has(PerksOf(a), Booster) == Has(PerksOf(b), Booster);
  }

  /** `calculatePerks`: start with no perks and set the flag of every mapped role. */
  method CalculatePerks(roles: seq<string>) returns (perks: Perks)
    ensures perks == PerksOf(roles)
  {
    perks := NoPerks;
    for i := 0 to |roles|
      invariant perks == PerksOf(roles[..i])
    {
      var flag := RoleMap(roles[i]);
      if flag.Some? {
        perks := Grant(perks, flag.value);
      }
      PerksOfSnoc(roles[..i], roles[i]);
      assert roles[..i + 1] == roles[..i] + [roles[i]];
    }
    assert roles[..|roles|] == roles;
  }

  /** The characters `String.prototype.trim` removes (white space and line terminators). */
  predicate IsSpace(c: char) {
    c == ' ' || c == '\t' || c == '\n' || c == '\r' || c == '\U{000B}' || c == '\U{000C}'
    || c == '\U{00A0}' || c == '\U{1680}' || ('\U{2000}' <= c <= '\U{200A}')
    || c == '\U{2028}' || c == '\U{2029}' || c == '\U{202F}' || c == '\U{205F}'
    || c == '\U{3000}' || c == '\U{FEFF}'
  }

  predicate AllSpace(s: string) { forall i :: 0 <= i < |s| ==> IsSpace(s[i]) }

  /** The number of white-space characters that open `s`. */
  function LeadingSpace(s: string): (k: nat)
    ensures k <= |s| && AllSpace(s[..k])
    ensures k < |s| ==> !IsSpace(s[k])
  {
    if s != [] && IsSpace(s[0]) then
      var k := 1 + LeadingSpace(s[1..]);
      assert s[..k] == [s[0]] + s[1..][..k - 1];
      k
    else 0
  }

  /** The number of white-space characters that close `s`. */
  function TrailingSpace(s: string): (k: nat)
    ensures k <= |s| && AllSpace(s[|s| - k..])
    ensures k < |s| ==> !IsSpace(s[|s| - k - 1])
  {
    if s != [] && IsSpace(s[|s| - 1]) then
      var k := 1 + TrailingSpace(s[..|s| - 1]);
      assert s[|s| - k..] == s[..|s| - 1][|s| - k..] + [s[|s| - 1]];
      k
    else 0
  }

  /** `trim`: `s` is white space, then the result, then white space; the result neither starts nor ends with white space. */
  function Trim(s: string): (t: string)
    ensures t == [] || (!IsSpace(t[0]) && !IsSpace(t[|t| - 1]))
    ensures exists i :: 0 <= i <= |s| - |t| && s[i..i + |t|] == t && AllSpace(s[..i]) && AllSpace(s[i + |t|..])
  {
    var a := LeadingSpace(s);
    var rest := s[a..];
    var b := TrailingSpace(rest);
    var t := rest[..|rest| - b];
    assert s[a..a + |t|] == t;
    assert s[a + |t|..] == rest[|rest| - b..];
    t
  }

  /** One document of the `User` collection. */
  datatype UserRecord = UserRecord(
    discordId: string,
    robloxName: string,
    robloxId: Option<string>,
    verificationCode: Option<string>,
    isVerified: bool,
    perks: Perks,
    lastUpdated: int)

  /** Outcome of the Roblox username lookup, an input to the model. */
  datatype RobloxLookup = Resolved(robloxId: string) | NoSuchUser | LookupFailed

  datatype VerifyReply = CodeSent(code: string) | RobloxUserNotFound | ServiceError
  datatype DmReply = Linked(robloxName: string) | IncorrectCode | NoReply
  datatype CodeLookup = PendingCode(verificationCode: string) | NoPendingCode
  datatype RolesLookup = Roles(status: Perks) | NoRoles

  /**
   * `findOneAndUpdate(..., {upsert: true})` of `/verify`: the named fields are
   * set; perks and lastUpdated are kept from an existing record, or take
   * their defaults in a new one.
   */
  function Upsert(existing: Option<UserRecord>, discordId: string, robloxName: string, robloxId: string, code: string, now: int)
    : (rec: UserRecord)
    ensures rec.discordId == discordId && rec.robloxName == robloxName && rec.robloxId == Some(robloxId)
    ensures rec.verificationCode == Some(code) && !rec.isVerified
    ensures rec.perks == (if existing.Some? then existing.value.perks else NoPerks)
  {
    match existing
    case Some(prior) => prior.(discordId := discordId, robloxName := robloxName, robloxId := Some(robloxId),
                           verificationCode := Some(code), isVerified := false)
    case None => UserRecord(discordId, robloxName, Some(robloxId), Some(code), false, NoPerks, now)
  }

  /** floor(100000 + random * 900000) as a string: a six-digit code in [100000, 999999]. */
  method GenerateCode() returns (code: string)
    ensures |code| == 6 && AllDigits(code)
    ensures 100000 <= FromDecimal(code) <= 999999
  {
    var n: nat :| 100000 <= n <= 999999;
    code := ToDecimal(n);
    assert Pow10(2) == 100 && Pow10(4) == 10000 && Pow10(5) == 100000 && Pow10(6) == 1000000;
    ToDecimalWidth(n, 6);
    FromToDecimal(n);
  }

  class UserCollection {
    var records: map<string, UserRecord>

    constructor ()
      ensures records == map[] && Valid()
    {
      records := map[];
    }

    /** Every record is stored under its own `discordId`. */
    ghost predicate Valid()
      reads this
    {
      forall id :: id in records ==> records[id].discordId == id
    }

    /**
     * `/verify roblox_username`: once the lookup resolves the id, draw a code
     * and upsert the caller's record; a failed lookup changes nothing.
     */
    method HandleVerifyCommand(discordId: string, robloxName: string, lookup: RobloxLookup, now: int)
      returns (r: VerifyReply)
      requires Valid()
      modifies this
      ensures Valid()
      ensures !lookup.Resolved? ==> records == old(records) && !r.CodeSent?
      ensures lookup.NoSuchUser? ==> r == RobloxUserNotFound
      ensures lookup.LookupFailed? ==> r == ServiceError
      ensures lookup.Resolved? ==>
        && r.CodeSent? && |r.code| == 6 && AllDigits(r.code)
        && records == old(records)[discordId := Upsert(Get(old(records), discordId), discordId, robloxName, lookup.robloxId, r.code, now)]
    {
      match lookup
      case NoSuchUser => r := RobloxUserNotFound;
      case LookupFailed => r := ServiceError;
      case Resolved(robloxId) =>
        var code := GenerateCode();
        records := records[discordId := Upsert(Get(records, discordId), discordId, robloxName, robloxId, code, now)];
        r := CodeSent(code);
    }

    /**
     * A direct message: the trimmed text confirms the link when it equals the
     * author's stored code and the member could be fetched from the guild
     * (`memberRoles` is None when the guild is not cached or the fetch failed).
     * Then the code is cleared, the record is verified and its perks are
     * recalculated; in every other case nothing changes.
     */
    method HandleDirectMessage(isDirectFromUser: bool, authorId: string, content: string, memberRoles: Option<seq<string>>)
      returns (r: DmReply)
      requires Valid()
      modifies this
      ensures Valid()
      ensures r.Linked? ==>
        && isDirectFromUser && authorId in old(records)
        && old(records)[authorId].verificationCode == Some(Trim(content))
        && memberRoles.Some? && r.robloxName == old(records)[authorId].robloxName
        && authorId in records && records[authorId].discordId == authorId
        && records == old(records)[authorId := old(records)[authorId].(
             perks := PerksOf(memberRoles.value), verificationCode := None, isVerified := true)]
      ensures (isDirectFromUser && authorId in old(records) && memberRoles.Some?
               && old(records)[authorId].verificationCode == Some(Trim(content))) ==> r.Linked?
      ensures !r.Linked? ==> records == old(records)
      ensures r == IncorrectCode <==>
        isDirectFromUser && authorId in old(records) && old(records)[authorId].verificationCode != Some(Trim(content))
        && Truthy(old(records)[authorId].verificationCode)
    {
      if !isDirectFromUser {
        return NoReply;
      }
      var submittedCode := Trim(content);
      var user := Get(records, authorId);
      if user.Some? && user.value.verificationCode == Some(submittedCode) {
        if memberRoles.Some? {
          var perks := CalculatePerks(memberRoles.value);
          records := records[authorId := user.value.(perks := perks, verificationCode := None, isVerified := true)];
          r := Linked(user.value.robloxName);
        } else {
          r := NoReply;
        }
      } else if user.Some? && Truthy(user.value.verificationCode) {
        r := IncorrectCode;
      } else {
        r := NoReply;
      }
    }

    /** `updatePlayerPerks`: a verified member's perks follow its current roles. */
    method UpdatePlayerPerks(discordId: string, roles: seq<string>, now: int)
      requires Valid()
      modifies this
      ensures Valid()
      ensures discordId in old(records) && old(records)[discordId].isVerified ==>
        records == old(records)[discordId := old(records)[discordId].(perks := PerksOf(roles), lastUpdated := now)]
      ensures !(discordId in old(records) && old(records)[discordId].isVerified) ==> records == old(records)
    {
      var user := Get(records, discordId);
      if user.Some? && user.value.isVerified {
        var perks := CalculatePerks(roles);
        records := records[discordId := user.value.(perks := perks, lastUpdated := now)];
      }
    }

    /**
     * `GET /api/v1/get-code/:robloxName`: `findOne` returns some record with
     * that name; its code is returned when it is set and non-empty.
     */
    method GetCodeByName(robloxName: string) returns (r: CodeLookup)
      ensures r.PendingCode? ==>
        exists id :: id in records && records[id].robloxName == robloxName
          && records[id].verificationCode == Some(r.verificationCode) && r.verificationCode != ""
      ensures (forall id :: id in records && records[id].robloxName == robloxName ==> !Truthy(records[id].verificationCode))
        ==> r == NoPendingCode
      ensures (exists id :: id in records && records[id].robloxName == robloxName)
        && (forall id :: id in records && records[id].robloxName == robloxName ==> Truthy(records[id].verificationCode))
        ==> r.PendingCode?
    {
      if id :| id in records && records[id].robloxName == robloxName {
        var code := records[id].verificationCode;
        if Truthy(code) {
          return PendingCode(code.value);
        }
      }
      return NoPendingCode;
    }

    /**
     * `GET /api/v1/get-roles/:robloxId`: the perks of some verified record
     * with that Roblox id, else 404 with an empty status.
     */
    method GetRoles(robloxId: string) returns (r: RolesLookup)
      ensures r.Roles? ==>
        exists id :: id in records && records[id].robloxId == Some(robloxId) && records[id].isVerified
          && records[id].perks == r.status
      ensures r == NoRoles <==>
        forall id :: id in records ==> !(records[id].robloxId == Some(robloxId) && records[id].isVerified)
    {
      if id :| id in records && records[id].robloxId == Some(robloxId) && records[id].isVerified {
        return Roles(records[id].perks);
      }
      return NoRoles;
    }
  }
}
