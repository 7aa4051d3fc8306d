/**
 * Per-guild switches for the command categories. Each guild's entry holds
 * its server name and one flag per category; the owner guild is always
 * allowed everything. The table lives in one JSON file behind an
 * in-memory cache.
 */
module PermManager {
  import opened Records

  const OWNER_GUILD_ID: string := "1349273253343920210"
  const OWNER_GUILD_NAME: string := "Owner Guild"
  const ALLOWED_CATEGORIES: seq<string> := ["general", "economy", "admin"]
  const ALLOWED: set<string> := {"general", "economy", "admin"}

  /** A guild's entry: "server_name" (possibly absent) and the category flags. */
  datatype GuildEntry = GuildEntry(serverName: Option<string>, flags: map<string, bool>)

  /** guild id -> entry. */
  type Permissions = map<string, GuildEntry>

  /** entry.get(category, False). */
  function FlagOf(e: GuildEntry, category: string): bool
  {
    if category in e.flags then e.flags[category] else false
  }

  lemma AllowedListed()
    ensures forall c :: c in ALLOWED_CATEGORIES <==> c in ALLOWED
    ensures ALLOWED_CATEGORIES[..|ALLOWED_CATEGORIES|] == ALLOWED_CATEGORIES
  {
  }

  // ---------------------------------------------------------------------
  // ensure_guild_entry
  // ---------------------------------------------------------------------

  /** The entry a guild starts from: its own, or a new one named after it. */
  function BaseEntry(perms: Permissions, gid: string, name: string): GuildEntry
  {
    if gid in perms then perms[gid]
    else GuildEntry(Some(if name != "" then name else "Guild_" + gid), map[])
  }

  /**
   * ensure_guild_entry as a definition: the guild's entry exists, every
   * allowed category is present (a missing one added as true for the
   * owner guild and false elsewhere), existing flags are kept, a supplied
   * name replaces a different one, and no other guild changes.
   */
  function Ensured(perms: Permissions, gid: string, name: string): (r: Permissions)
    ensures gid in r && r.Keys == perms.Keys + {gid}
    ensures forall g :: g in perms && g != gid ==> r[g] == perms[g]
    ensures ALLOWED <= r[gid].flags.Keys
    ensures r[gid].flags.Keys == BaseEntry(perms, gid, name).flags.Keys + ALLOWED
    ensures forall c :: c in BaseEntry(perms, gid, name).flags ==> r[gid].flags[c] == BaseEntry(perms, gid, name).flags[c]
    ensures forall c :: c in ALLOWED && c !in BaseEntry(perms, gid, name).flags ==> r[gid].flags[c] == (gid == OWNER_GUILD_ID)
    ensures name != "" ==> r[gid].serverName == Some(name)
    ensures name == "" ==> r[gid].serverName == BaseEntry(perms, gid, name).serverName
  {
    var base := BaseEntry(perms, gid, name);
    var flags := map c | c in base.flags.Keys + ALLOWED :: if c in base.flags then base.flags[c] else gid == OWNER_GUILD_ID;
    perms[gid := GuildEntry(if name != "" then Some(name) else base.serverName, flags)]
  }

  /** Ensuring twice is ensuring once. */
  lemma EnsuredIdempotent(perms: Permissions, gid: string, name: string)
    ensures Ensured(Ensured(perms, gid, name), gid, name) == Ensured(perms, gid, name)
  {
    var once := Ensured(perms, gid, name);
    var twice := Ensured(once, gid, name);
    assert twice[gid].flags == once[gid].flags;
    assert twice[gid] == once[gid];
  }

  /** The missing allowed categories filled in, one by one, with the guild's default. */
  method FillCategories(flags0: map<string, bool>, default: bool) returns (flags: map<string, bool>)
    ensures flags.Keys == flags0.Keys + ALLOWED
    ensures forall c :: c in flags ==> flags[c] == if c in flags0 then flags0[c] else default
  {
    flags := flags0;
    var i := 0;
    while i < |ALLOWED_CATEGORIES|
      invariant 0 <= i <= |ALLOWED_CATEGORIES|
      invariant forall c :: c in flags <==> c in flags0 || c in ALLOWED_CATEGORIES[..i]
      invariant forall c :: c in flags ==> flags[c] == if c in flags0 then flags0[c] else default
    {
      var c := ALLOWED_CATEGORIES[i];
      assert ALLOWED_CATEGORIES[..i + 1] == ALLOWED_CATEGORIES[..i] + [c];
      if c !in flags {
        flags := flags[c := default];
      }
      i := i + 1;
    }
    AllowedListed();
  }

  /** ensure_guild_entry: create the entry, fill in missing categories, rename. */
  method EnsureGuildEntry(perms: Permissions, gid: string, name: string) returns (p: Permissions, entry: GuildEntry)
    ensures p == Ensured(perms, gid, name) && entry == p[gid]
  {
    p := perms;
    if gid !in p {
      p := p[gid := GuildEntry(Some(if name != "" then name else "Guild_" + gid), map[])];
    }
    var flags := FillCategories(p[gid].flags, gid == OWNER_GUILD_ID);
    entry := p[gid].(flags := flags);
    if name != "" && entry.serverName != Some(name) {
      entry := entry.(serverName := Some(name));
    }
    assert entry.flags == Ensured(perms, gid, name)[gid].flags;
    p := p[gid := entry];
  }

  // ---------------------------------------------------------------------
  // Loading
  // ---------------------------------------------------------------------

  /** The flags with the three categories switched on and the others kept. */
  function Forced(flags: map<string, bool>): map<string, bool>
  {
    map c | c in flags.Keys + ALLOWED :: if c in ALLOWED then true else flags[c]
  }

  /** The loop of load_permissions that switches each allowed category on. */
  method ForceAllowedOn(flags0: map<string, bool>) returns (flags: map<string, bool>)
    ensures flags.Keys == flags0.Keys + ALLOWED
    ensures forall c :: c in flags ==> flags[c] == (c in ALLOWED || flags0[c])
    ensures flags == Forced(flags0)
  {
    flags := flags0;
    var i := 0;
    while i < |ALLOWED_CATEGORIES|
      invariant 0 <= i <= |ALLOWED_CATEGORIES|
      invariant forall c :: c in flags <==> c in flags0 || c in ALLOWED_CATEGORIES[..i]
      invariant forall c :: c in flags ==> flags[c] == if c in ALLOWED_CATEGORIES[..i] then true else flags0[c]
    {
      assert ALLOWED_CATEGORIES[..i + 1] == ALLOWED_CATEGORIES[..i] + [ALLOWED_CATEGORIES[i]];
      flags := flags[ALLOWED_CATEGORIES[i] := true];
      i := i + 1;
    }
    AllowedListed();
  }

  /** The owner's three categories switched on, its other flags kept. */
  function ForceOwner(p: Permissions): (r: Permissions)
    requires OWNER_GUILD_ID in p
    ensures r.Keys == p.Keys && forall g :: g in p && g != OWNER_GUILD_ID ==> r[g] == p[g]
    ensures r[OWNER_GUILD_ID].serverName == p[OWNER_GUILD_ID].serverName
    ensures forall c :: c in ALLOWED ==> FlagOf(r[OWNER_GUILD_ID], c)
    ensures forall c :: c !in ALLOWED ==> FlagOf(r[OWNER_GUILD_ID], c) == FlagOf(p[OWNER_GUILD_ID], c)
  {
    var e := p[OWNER_GUILD_ID];
    p[OWNER_GUILD_ID := e.(flags := Forced(e.flags))]
  }

  /**
   * load_permissions without a cache: the file (an empty table when it is
   * missing or unreadable), the owner entry ensured and named "Owner
   * Guild", and its three categories forced on.
   */
  function Loaded(file: Option<Permissions>): (r: Permissions)
    ensures OWNER_GUILD_ID in r
    ensures forall c :: c in ALLOWED ==> FlagOf(r[OWNER_GUILD_ID], c)
    ensures r[OWNER_GUILD_ID].serverName == Some(OWNER_GUILD_NAME)
  {
    var stored := if file.Some? then file.value else map[];
    ForceOwner(Ensured(stored, OWNER_GUILD_ID, OWNER_GUILD_NAME))
  }

  /** Loading keeps every other guild exactly as the file has it. */
  lemma LoadedKeepsOtherGuilds(file: Option<Permissions>, g: string)
    requires file.Some? && g in file.value && g != OWNER_GUILD_ID
    ensures g in Loaded(file) && Loaded(file)[g] == file.value[g]
  {
  }

  // ---------------------------------------------------------------------
  // Pure queries
  // ---------------------------------------------------------------------

  /** get_category_guilds on a table: the guilds whose flag for the category is on. */
  function CategoryGuilds(p: Permissions, category: string): (s: set<string>)
    ensures forall g :: g in s <==> g in p && FlagOf(p[g], category)
  {
    set g | g in p && FlagOf(p[g], category)
  }

  /** get_guild_permissions on a table: exactly the three categories, all off for an unknown guild. */
  function GuildPermissions(p: Permissions, gid: string): (m: map<string, bool>)
    ensures m.Keys == ALLOWED
    ensures gid !in p ==> forall c :: c in m ==> !m[c]
    ensures gid in p ==> forall c :: c in m ==> m[c] == FlagOf(p[gid], c)
  {
    if gid !in p then map c | c in ALLOWED :: false
    else map c | c in ALLOWED :: FlagOf(p[gid], c)
  }

  /** get_guild_permission on a table: the owner always, else the stored flag or false. */
  function GuildPermission(p: Permissions, gid: string, category: string): (r: bool)
    ensures gid == OWNER_GUILD_ID ==> r
    ensures gid != OWNER_GUILD_ID ==> (r <==> gid in p && FlagOf(p[gid], category))
  {
    if gid == OWNER_GUILD_ID then true
    else if gid in p then FlagOf(p[gid], category)
    else false
  }

  /** The three queries agree: a guild is listed for a category exactly when its permissions map says so. */
  lemma QueriesAgree(p: Permissions, gid: string, category: string)
    requires category in ALLOWED && gid != OWNER_GUILD_ID
    ensures gid in CategoryGuilds(p, category) <==> GuildPermissions(p, gid)[category]
    ensures GuildPermission(p, gid, category) == GuildPermissions(p, gid)[category]
  {
  }

  // ---------------------------------------------------------------------
  // The manager
  // ---------------------------------------------------------------------

  class PermissionManager {
    /** _permissions_cache */
    var cache: Option<Permissions>
    /** The permissions file; none when it is missing or not valid JSON. */
    var file: Option<Permissions>

    constructor (file: Option<Permissions>)
      ensures cache.None? && this.file == file
    {
      cache := None;
      this.file := file;
    }

    /** What load_permissions would return now without forcing a reload. */
    function Current(): Permissions
      reads this
    {
      if cache.Some? then cache.value else Loaded(file)
    }

    /** load_permissions: the cache when present and not forced, else a fresh load that is cached. */
    method LoadPermissions(forceReload: bool) returns (p: Permissions)
      modifies this`cache
      ensures cache == Some(p)
      ensures !forceReload ==> p == old(Current())
      ensures forceReload || old(cache).None? ==> p == Loaded(file)
    {
      if cache.Some? && !forceReload {
        return cache.value;
      }
      var stored: Permissions := if file.Some? then file.value else map[];
      var owner;
      stored, owner := EnsureGuildEntry(stored, OWNER_GUILD_ID, OWNER_GUILD_NAME);
      var flags := ForceAllowedOn(owner.flags);
      p := stored[OWNER_GUILD_ID := owner.(flags := flags)];
      cache := Some(p);
    }

    /** get_guild_permission: no load for the owner guild. */
    method GetGuildPermission(gid: string, category: string) returns (r: bool)
      modifies this`cache
      ensures r == GuildPermission(old(Current()), gid, category)
      ensures Current() == old(Current())
    {
      if gid == OWNER_GUILD_ID {
        return true;
      }
      var p := LoadPermissions(false);
      if gid in p {
        return FlagOf(p[gid], category);
      }
      r := false;
    }

    /** get_category_guilds. */
    method GetCategoryGuilds(category: string) returns (s: set<string>)
      modifies this`cache
      ensures s == CategoryGuilds(old(Current()), category)
      ensures Current() == old(Current())
    {
      var p := LoadPermissions(false);
      s := CategoryGuilds(p, category);
    }

    /** get_guild_permissions. */
    method GetGuildPermissions(gid: string) returns (m: map<string, bool>)
      modifies this`cache
      ensures m == GuildPermissions(old(Current()), gid)
      ensures Current() == old(Current())
    {
      var p := LoadPermissions(false);
      m := GuildPermissions(p, gid);
    }

    /**
     * update_permission: a category outside the three is refused with no
     * change. Otherwise the guild's entry is ensured, the flag set, and
     * the table written to the file and the cache; a failed write
     * reports false and leaves the file alone.
     */
    method UpdatePermission(gid: string, category: string, enabled: bool, name: string, writeOk: bool)
      returns (ok: bool)
      modifies this
      ensures category !in ALLOWED ==> !ok && cache == old(cache) && file == old(file)
      ensures category in ALLOWED ==>
                var ensured := Ensured(old(Current()), gid, name);
                var updated := ensured[gid := ensured[gid].(flags := ensured[gid].flags[category := enabled])];
                ok == writeOk &&
                (writeOk ==> file == Some(updated) && cache == Some(updated)) &&
                (!writeOk ==> file == old(file) && cache == Some(old(Current())))
    {
      if category !in ALLOWED_CATEGORIES {
        AllowedListed();
        return false;
      }
      AllowedListed();
      var p := LoadPermissions(false);
      var entry;
      p, entry := EnsureGuildEntry(p, gid, name);
      p := p[gid := entry.(flags := entry.flags[category := enabled])];
      if writeOk {
        file := Some(p);
        cache := Some(p);
        ok := true;
      } else {
        ok := false;
      }
    }
  }

  /**
   * After a successful update every query sees the new flag (the owner
   * guild still answers true to get_guild_permission), and every other
   * guild answers as before.
   */
  lemma UpdateIsSeen(p: Permissions, gid: string, category: string, enabled: bool, name: string, g: string, c: string)
    requires category in ALLOWED
    ensures var ensured := Ensured(p, gid, name);
            var updated := ensured[gid := ensured[gid].(flags := ensured[gid].flags[category := enabled])];
            GuildPermissions(updated, gid)[category] == enabled &&
            (gid != OWNER_GUILD_ID ==> GuildPermission(updated, gid, category) == enabled) &&
            (gid in CategoryGuilds(updated, category) <==> enabled) &&
            (g != gid ==> GuildPermission(updated, g, c) == GuildPermission(p, g, c))
  {
  }
}
