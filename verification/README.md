# Discord–Roblox verification core, modelled in Dafny

The bot links a Discord user id to a Roblox account through a short-lived
numeric code. The repository holds two versions, and both are modelled here.

* **JSON-file version** (`src/`). A `Store` object holds two string-keyed maps,
  `users` (confirmed links `{robloxUsername, robloxId, verifiedAt}`) and
  `pendingVerifications` (attempts `{code, robloxUsername, createdAt}`).
  `/verify` issues a 4-digit code. `/confirm` sweeps expired entries and scans
  for the first pending entry with the submitted code; it refuses a code that
  belongs to someone else, and otherwise creates the link and drops the entry.
  `/logout` removes the link. Three HTTP endpoints (`get-code`, `verify-user`,
  `is-verified`) act on the same store. An entry expires once strictly more
  than `codeExpirationMinutes` × 60 × 1000 ms (10 minutes by default) have
  passed since it was created.
* **MongoDB version** (`discord.js`). There is one record per user, with a
  `verificationCode` and an `isVerified` flag. `/verify` upserts the record with
  a 6-digit code. A direct message holding that code (after trimming) verifies
  the user and computes the role-derived perks. Two HTTP lookups return a
  pending code by Roblox name and the perks of a verified Roblox id.

Files and modules:

| file | module | models |
|---|---|---|
| wrappers.dfy | `Wrappers` | `Option`, map lookup as `obj[key]` |
| decimal.dfy | `Decimal` | decimal numerals (`Number#toString`), their value, width and round trip |
| json_store.dfy | `JsonStore` | `src/store.js`: the `Store` class, the expiry sweep, load/save |
| bot.dfy | `Bot` | `src/bot.js`: `generateCode`, `/verify`, `/confirm`, `/logout` |
| api.dfy | `Api` | `src/api.js`: `get-code`, `verify-user`, `is-verified` |
| mongo_bot.dfy | `MongoBot` | `discord.js`: perks, trim, upsert, DM confirmation, lookups |
| scenarios.dfy | `Scenarios` | end-to-end runs over fresh stores |

Modelling choices:

* Time is integer milliseconds. Each handler receives `now` as a parameter.
* Random code draws are a nondeterministic choice (`:|`) in the source's range.
* The `for…in` scan of `/confirm` picks among unvisited keys without a fixed
  order. Mongo's `findOne` picks any matching record.
* Each state-changing handler states its whole new state in terms of the old
  one. It also keeps the invariant "no Discord id is both linked and pending"
  (`Store.Disjoint`), provided that invariant held before the call.
  `Store.Load` is the exception: a data file may list one id in both maps,
  and loading it breaks the invariant.

Three behaviours of the code differ from what one might expect of such a
system; the model follows the code:

* An expired code is not a separate outcome. The sweep removes it first, and
  `/confirm` then reports it as an invalid code.
* `verify-user` creates a link with no code comparison. It also overwrites an
  existing link. So a link does not come only from a code match.
* `/verify` always overwrites an earlier pending entry; it is never refused as
  "already pending".

## Model

| member | source | states |
|---|---|---|
| Decimal.ToDecimal | src/bot.js:25 | the numeral of an integer is a non-empty string of digits with no leading zero |
| Decimal.FromToDecimal | src/bot.js:25 | reading the numeral back gives the integer it came from |
| Decimal.ToDecimalInjective | src/bot.js:25 | distinct integers have distinct numerals, so distinct draws give distinct codes |
| Decimal.ToDecimalWidth | src/bot.js:23-26 | an integer in [10^(k-1), 10^k) has a numeral of exactly k characters |
| JsonStore.LiveExactly | src/store.js:83-93 | after a sweep at `now`, an entry survives iff `now - createdAt <= minutes*60*1000` (the boundary is kept), unaltered |
| JsonStore.LiveIdempotent | src/store.js:87-92 | sweeping twice at the same instant equals sweeping once |
| JsonStore.LiveLater | src/store.js:83-93 | a sweep at a later time subsumes an earlier one |
| JsonStore.Merge | src/store.js:19 | a top-level key present in the loaded file replaces the current value; an absent key keeps it |
| JsonStore.Store.constructor | src/store.js:5-11 | both maps start empty |
| JsonStore.Store.Save | src/store.js:30-36 | the written document carries both top-level keys with the current maps |
| JsonStore.Store.Load | src/store.js:16-25 | on success each present key replaces the current map; on a read or parse failure nothing changes |
| JsonStore.Store.GetUser | src/store.js:41-43 | the link of an id, or None when the id has none |
| JsonStore.Store.SetUser | src/store.js:48-50 | afterwards `GetUser(id)` is the new link; other ids and all pending entries are unchanged |
| JsonStore.Store.RemoveUser | src/store.js:76-78 | afterwards `GetUser(id)` is None; nothing else changes |
| JsonStore.Store.GetPendingVerification | src/store.js:55-57 | the pending entry of an id, or None |
| JsonStore.Store.SetPendingVerification | src/store.js:62-64 | replaces any earlier entry of the id; other ids and `users` are unchanged |
| JsonStore.Store.RemovePendingVerification | src/store.js:69-71 | deletes only that key, a no-op when it is absent; `users` is unchanged |
| JsonStore.Store.CleanupExpiredVerifications | src/store.js:83-93 | the in-place deleting loop leaves exactly `Live(old pending, now)`; `users` is untouched; disjointness is kept |
| JsonStore.Restart | src/store.js:16-36 | save followed by load into a fresh store reproduces both maps |
| JsonStore.StartWithoutFile | src/store.js:16-24 | a fresh store whose file cannot be read keeps the default empty maps |
| Bot.GenerateCode | src/bot.js:24-26 | the code is the numeral of an integer in [1000, 9999], hence exactly 4 digits |
| Bot.FindByCode | src/bot.js:134-145 | the scan returns an id whose entry has the code, or None only when no entry has it |
| Bot.HandleVerify | src/bot.js:78-122 | a linked id gets AlreadyVerified and nothing changes; otherwise the sweep runs and the caller's entry is replaced by a fresh 4-digit code, the claimed username and `now` |
| Bot.HandleConfirm | src/bot.js:125-171 | InvalidCode iff no live entry has the code; NotYourCode only when another id's live entry has it; success only for the caller's own live, unexpired entry with that code, and then the link gets its username and `SIMULATED_ID_` + id and the entry is removed; a failure changes only the sweep; disjointness is kept |
| Bot.HandleLogout | src/bot.js:229-243 | an unlinked id changes nothing; a linked id loses only its link; pending entries are untouched |
| Api.GetCode | src/api.js:26-56 | 400 iff `discordId` is falsy; 404 iff no pending entry; a truthy id with a pending entry gets exactly that entry's code and createdAt, and only then is a code returned; read-only |
| Api.VerifyUser | src/api.js:59-102 | 400 iff a field is falsy; 404 iff no pending entry; success links the supplied username and id with no code check and removes the entry; failures change nothing |
| Api.IsVerifiedLookup | src/api.js:105-135 | 400 for an empty id; 404 iff no link; a non-empty linked id gets exactly its stored link fields, and only then is a link reported; read-only |
| MongoBot.Grant | discord.js:53 | setting a perk flag turns that flag on and leaves the others |
| MongoBot.PerksOfSnoc | discord.js:51-55 | one more role adds its mapped perk, if it has one, to the perks of the others |
| MongoBot.PerksOfNoRoles | discord.js:50 | with no roles all three flags are false |
| MongoBot.PerksIgnoreUnmapped | discord.js:52 | a role id absent from `ROLE_MAP` changes nothing |
| MongoBot.PerksOrderIndependent | discord.js:51-55 | the perks depend only on the set of role ids, not on their order or repetition |
| MongoBot.CalculatePerks | discord.js:49-57 | the loop yields a flag that is true iff some role id maps to it in `ROLE_MAP` |
| MongoBot.Trim | discord.js:100 | the result is the input with white space removed only at both ends; it neither starts nor ends with white space |
| MongoBot.Upsert | discord.js:148-158 | the record gets the name, id and new code with `isVerified = false`; perks are kept from an existing record or default to false |
| MongoBot.GenerateCode | discord.js:146 | the code is the numeral of an integer in [100000, 999999], hence exactly 6 digits |
| MongoBot.UserCollection.HandleVerifyCommand | discord.js:127-167 | a failed Roblox lookup changes nothing; otherwise the caller's record is upserted with a fresh 6-digit code |
| MongoBot.UserCollection.HandleDirectMessage | discord.js:97-125 | the link happens iff the trimmed text equals the stored code and the member was fetched; the author's own record then has its code cleared, `isVerified` set and perks recalculated; otherwise nothing changes; IncorrectCode iff a different code is pending |
| MongoBot.UserCollection.UpdatePlayerPerks | discord.js:59-71 | only a verified record's perks (and lastUpdated) follow the member's roles |
| MongoBot.UserCollection.GetCodeByName | discord.js:177-189 | a returned code belongs to a record with that name and is non-empty; none is returned when no such record has a code |
| MongoBot.UserCollection.GetRoles | discord.js:191-206 | perks come from a verified record with that Roblox id; NoRoles iff there is no such record |
| Scenarios.VerifyThenConfirm | src/bot.js:78-170 | `/verify` then `/confirm` with the issued code before expiry links the caller, and `is-verified` reports the link |
| Scenarios.ConfirmOthersCode | src/bot.js:154-158 | another user's `/confirm` with the code is refused as NotYourCode, and the owner can still use it |
| Scenarios.ConfirmWithoutPending | src/bot.js:147-151 | with nothing pending any code is InvalidCode |
| Scenarios.ConfirmAfterExpiry | src/bot.js:132-151 | past the window the code is swept and reported as InvalidCode, and nothing stays pending |
| Scenarios.LogoutUnlinked | src/bot.js:234-239 | `/logout` without a link is refused |
| Scenarios.RestartVerification | src/bot.js:93-103 | a second `/verify` invalidates the first code unless the draw repeated it |
| Scenarios.GetCodeAfterVerify | src/api.js:37-49 | `get-code` returns the code and time that `/verify` stored |
| Scenarios.VerifyUserThenLookup | src/api.js:71-87 | `verify-user` links a pending user without a code, and `is-verified` then reports the supplied fields |
| Scenarios.MongoVerifyThenDm | discord.js:100-115 | the code relayed back by DM with surrounding white space verifies the user, and `get-roles` returns its perks |
| Scenarios.TrimPadded | discord.js:100 | a digit string padded by white space trims back to itself |

## Left out

- File I/O and JSON encoding in `load`/`save`. `Load` receives the parsed document (None on a read or parse failure). `Save` is the document that would be written. Write errors are logged and change no state.
- Malformed data-file values, such as `"users": null`. A parsed document is assumed to hold maps of well-formed records.
- The `save()` after each mutation. It does not change the in-memory maps, so the handlers do not model it.
- Discord plumbing: intents, command registration, `deferReply`/`editReply` texts, nickname setting and resetting, role display. Nickname failures never affect the store.
- Express setup, routing, the health-check route, the 404 fallback and the 500 handlers. No operation of the model throws.
- Mongoose schema validation, the connection, and the axios Roblox lookup. The lookup's outcome is the input `RobloxLookup`.
- The `guildMemberUpdate` trigger condition (a change in role count) that calls `updatePlayerPerks`.
- `src/index.js`: bootstrap, shutdown, and the 60-second timer that calls `cleanupExpiredVerifications`.
- `src/config.js`: environment parsing. `codeExpirationMinutes` is the constant 10.
- Ids that name inherited `Object.prototype` properties (`constructor`, `toString`, `__proto__`, …). The source's maps are plain objects, so `users[id]` and `pendingVerifications[id]` find those inherited members (src/store.js:42, src/store.js:56). Then `get-code` answers 200 with empty fields, `is-verified` answers `verified: true`, and `verify-user` creates a link with no pending entry. The model's maps hold only their own keys, so it answers 404 for such ids.
- Interleaving of handlers. Each handler is modelled as one atomic step. The Mongo direct-message handler is not atomic in the source: it reads the record (discord.js:103), awaits the member fetch and the nickname change (discord.js:108-110), and only then saves the modified paths `perks`, `verificationCode` and `isVerified` (discord.js:112-115). A `/verify` upsert (discord.js:148-158) that lands inside that window keeps its new `robloxName`/`robloxId`, loses its new code and ends verified. The JSON-file handlers await only after their map updates and are not affected.
- Clock reads. A handler reads the clock more than once (sweep, `createdAt`, `verifiedAt`); the model uses one `now` for all of them. ISO-string conversion of timestamps is not modelled.
- JSON-body fields that are not strings. Falsiness is modelled only for strings (missing or empty).
- Trim works on Unicode scalar values rather than UTF-16 code units.
- Bot.HandleConfirm: when the caller's live entry and another id's live entry hold the same code, either success or NotYourCode is allowed, because the `for…in` visiting order is not modelled.
- MongoBot.UserCollection.GetCodeByName: when several records share the Roblox name, the returned answer depends on which one `findOne` yields, so only its relation to some matching record is stated.
- MongoBot.UserCollection.GetRoles: with several verified records for one Roblox id, only "the perks of one of them" is stated.
