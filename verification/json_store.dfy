/**
 * The JSON-file store of the slash-command version: two string-keyed maps,
 * `users` (confirmed links) and `pendingVerifications` (attempts in flight),
 * updated in place. Reading and writing the file are abstracted: `Load`
 * receives the parsed document (or None when the file could not be read or
 * parsed) and `Save` yields the document that would be written.
 * Timestamps are integer milliseconds.
 */
module JsonStore {
  import opened Wrappers

  /** `config.verification.codeExpirationMinutes` at its default. */
  const CodeExpirationMinutes: nat := 10
  /** The expiry window in milliseconds: minutes * 60 * 1000. */
  const ExpirationMs: nat := CodeExpirationMinutes * 60 * 1000

  /** A confirmed Discord-to-Roblox link. */
  datatype Link = Link(robloxUsername: string, robloxId: string, verifiedAt: int)

  /** A verification attempt awaiting `/confirm`. */
  datatype Pending = Pending(code: string, robloxUsername: string, createdAt: int)

  /** A parsed data file; a top-level key missing from the file is None. */
  datatype Document = Document(users: Option<map<string, Link>>, pendingVerifications: Option<map<string, Pending>>)

  /** An entry is expired once strictly more than the window has passed since it was created. */
  predicate Expired(p: Pending, now: int) {
    now - p.createdAt > ExpirationMs
  }

  /** The pending entries that survive an expiry sweep at time `now`. */
  function Live(m: map<string, Pending>, now: int): map<string, Pending> {
    map id | id in m && !Expired(m[id], now) :: m[id]
  }

  /** The sweep keeps exactly the entries at most the window old (the boundary is kept) and does not alter them. */
  lemma LiveExactly(m: map<string, Pending>, now: int, id: string)
    ensures id in Live(m, now) <==> id in m && now - m[id].createdAt <= CodeExpirationMinutes * 60 * 1000
    ensures id in Live(m, now) ==> Live(m, now)[id] == m[id]
  {
  }

  /** Sweeping twice at the same instant is the same as sweeping once. */
  lemma LiveIdempotent(m: map<string, Pending>, now: int)
    ensures Live(Live(m, now), now) == Live(m, now)
  {
  }

  /** A later sweep subsumes an earlier one. */
  lemma LiveLater(m: map<string, Pending>, t1: int, t2: int)
    requires t1 <= t2
    ensures Live(Live(m, t1), t2) == Live(m, t2)
  {
  }

  /** A top-level key of a loaded document replaces the current value; an absent one keeps it. */
  function Merge<T>(current: T, loaded: Option<T>): (r: T)
    ensures loaded.Some? ==> r == loaded.value
    ensures loaded.None? ==> r == current
  {
    if loaded.Some? then loaded.value else current
  }

  class Store {
    var users: map<string, Link>
    var pendingVerifications: map<string, Pending>

    /** Both maps start empty (the default data). */
    constructor ()
      ensures users == map[] && pendingVerifications == map[]
    {
      users := map[];
      pendingVerifications := map[];
    }

    /** No Discord id is both linked and pending. */
    ghost predicate Disjoint()
      reads this
    {
      users.Keys !! pendingVerifications.Keys
    }

    /** What `save` writes: both top-level keys, with the current maps. */
    function Save(): (doc: Document)
      reads this
      ensures doc.users.Some? && doc.pendingVerifications.Some?
      ensures doc.users.value == users && doc.pendingVerifications.value == pendingVerifications
    {
      Document(Some(users), Some(pendingVerifications))
    }

    /**
     * `load`: a parsed document is spread over the current data, key by key;
     * a read or parse failure (None) leaves the data as it is (the file is
     * then rewritten from the current data, which changes nothing here).
     */
    method Load(file: Option<Document>)
      modifies this
      ensures file.None? ==> users == old(users) && pendingVerifications == old(pendingVerifications)
      ensures file.Some? ==> users == Merge(old(users), file.value.users)
      ensures file.Some? ==> pendingVerifications == Merge(old(pendingVerifications), file.value.pendingVerifications)
    {
      if file.Some? {
        users := Merge(users, file.value.users);
        pendingVerifications := Merge(pendingVerifications, file.value.pendingVerifications);
      }
    }

    /** `getUser`: the link of `discordId`, or None (`undefined`) when it has none. */
    function GetUser(discordId: string): (r: Option<Link>)
      reads this
      ensures r.None? <==> discordId !in users
      ensures r.Some? ==> r.value == users[discordId]
    {
      Get(users, discordId)
    }

    /** `setUser`: afterwards `GetUser(discordId)` is the new link; nothing else changes. */
    method SetUser(discordId: string, link: Link)
      modifies this
      ensures GetUser(discordId) == Some(link)
      ensures forall id :: id != discordId ==> GetUser(id) == old(GetUser(id))
      ensures users == old(users)[discordId := link]
      ensures pendingVerifications == old(pendingVerifications)
    {
      users := users[discordId := link];
    }

    /** `removeUser`: afterwards `GetUser(discordId)` is None; nothing else changes. */
    method RemoveUser(discordId: string)
      modifies this
      ensures GetUser(discordId).None?
      ensures forall id :: id != discordId ==> GetUser(id) == old(GetUser(id))
      ensures users == old(users) - {discordId}
      ensures pendingVerifications == old(pendingVerifications)
    {
      users := users - {discordId};
    }

    /** `getPendingVerification`: the pending entry of `discordId`, or None. */
    function GetPendingVerification(discordId: string): (r: Option<Pending>)
      reads this
      ensures r.None? <==> discordId !in pendingVerifications
      ensures r.Some? ==> r.value == pendingVerifications[discordId]
    {
      Get(pendingVerifications, discordId)
    }

    /** `setPendingVerification`: replaces any earlier entry of `discordId`; nothing else changes. */
    method SetPendingVerification(discordId: string, p: Pending)
      modifies this
      ensures GetPendingVerification(discordId) == Some(p)
      ensures pendingVerifications == old(pendingVerifications)[discordId := p]
      ensures users == old(users)
    {
      pendingVerifications := pendingVerifications[discordId := p];
    }

    /** `removePendingVerification`: deletes only that key; a no-op when it is absent. */
    method RemovePendingVerification(discordId: string)
      modifies this
      ensures GetPendingVerification(discordId).None?
      ensures pendingVerifications == old(pendingVerifications) - {discordId}
      ensures discordId !in old(pendingVerifications) ==> pendingVerifications == old(pendingVerifications)
      ensures users == old(users)
    {
      pendingVerifications := pendingVerifications - {discordId};
    }

    /**
     * `cleanupExpiredVerifications`: visits every pending entry and deletes,
     * in place, each one older than the window. What remains is `Live`.
     */
    method CleanupExpiredVerifications(now: int)
      modifies this
      ensures pendingVerifications == Live(old(pendingVerifications), now)
      ensures users == old(users)
      ensures old(Disjoint()) ==> Disjoint()
    {
      ghost var start := pendingVerifications;
      var unvisited := pendingVerifications.Keys;
      while unvisited != {}
        invariant unvisited <= start.Keys
        invariant users == old(users)
        invariant pendingVerifications == map id | id in start && (id in unvisited || !Expired(start[id], now)) :: start[id]
        decreases unvisited
      {
        var id :| id in unvisited;
        if Expired(pendingVerifications[id], now) {
          pendingVerifications := pendingVerifications - {id};
        }
        unvisited := unvisited - {id};
      }
    }
  }

  /** Saving and then loading into a fresh store (a restart) reproduces both maps. */
  method Restart(store: Store) returns (restarted: Store)
    ensures restarted.users == store.users
    ensures restarted.pendingVerifications == store.pendingVerifications
  {
    var doc := store.Save();
    restarted := new Store();
    restarted.Load(Some(doc));
  }

  /** Loading an unreadable file into a fresh store leaves the default empty maps. */
  method StartWithoutFile() returns (store: Store)
    ensures store.users == map[] && store.pendingVerifications == map[]
  {
    store := new Store();
    store.Load(None);
  }
}
