/**
 * The data service: a TTL cache in front of per-guild JSON files, the
 * bot settings, default account creation and create-on-read of accounts.
 *
 * `Store` models the caches and the files; `Ledger` models one guild's
 * document as the economy commands read and write it through
 * get_user_data / load_guild_data / save_guild_data.
 */
module DataService {
  import opened Records

  const CACHE_TTL: int := 300
  const DEFAULT_STARTING_BALANCE: int := 50
  const SETTINGS_KEY: string := "bot_settings"
  const RESPONSE_PREFIX: string := "response_"

  /** The six command cooldowns every new account starts with. */
  const COOLDOWN_COMMANDS: set<string> := {"work", "crime", "rob", "roulette", "escape", "breakout"}

  /** A JSON value of the bot settings: a number, a string or a boolean. */
  datatype SettingValue = IntValue(n: int) | TextValue(text: string) | FlagValue(flag: bool)

  /** The bot settings table. */
  type Settings = map<string, SettingValue>

  type ResponseTable = map<string, seq<string>>

  /** A guild file as the safe JSON loader finds it: readable, or corrupt with an optional readable backup. */
  datatype StoredFile = Intact(doc: Document) | Corrupt(backup: Option<Document>)

  /** The in-memory caches and their shared timestamp table. */
  datatype CacheState = CacheState(
    guilds: map<string, Document>,
    responses: map<string, ResponseTable>,
    config: map<string, Settings>,
    stamps: map<string, int>)

  /** Settings written when no settings file exists. */
  const DEFAULT_SETTINGS: Settings :=
    map["version" := TextValue("1.0.0"), "debug_mode" := FlagValue(true),
        "starting_balance" := IntValue(50), "critical_success_chance" := IntValue(2),
        "critical_multiplier_min" := IntValue(3), "critical_multiplier_max" := IntValue(5)]

  /** _is_cache_valid: the key has a timestamp younger than the TTL. */
  predicate IsCacheValid(c: CacheState, key: string, now: int)
  {
    if key !in c.stamps then false else now - c.stamps[key] < CACHE_TTL
  }

  /** A timestamp set at time t keeps its entry valid exactly until t + TTL (exclusive). */
  lemma StampLifetime(c: CacheState, key: string, t: int, now: int)
    ensures IsCacheValid(c.(stamps := c.stamps[key := t]), key, now) <==> now < t + CACHE_TTL
    ensures !IsCacheValid(c.(stamps := c.stamps - {key}), key, now)
  {
  }

  /** _safe_load_json with default {}: the primary file, else its backup, else empty. */
  function ReadGuildFile(files: map<string, StoredFile>, g: string): Document
  {
    if g !in files then map[]
    else match files[g]
      case Intact(d) => d
      case Corrupt(backup) => if backup.Some? then backup.value else map[]
  }

  function ReadSettings(file: Option<Settings>): Settings
  {
    if file.Some? then file.value else map[]
  }

  function SettingOr(s: Settings, name: string, default: SettingValue): SettingValue
  {
    if name in s then s[name] else default
  }

  function DefaultCooldowns(): (m: map<string, int>)
    ensures m.Keys == COOLDOWN_COMMANDS
    ensures forall c :: c in m ==> m[c] == 0
  {
    map["work" := 0, "crime" := 0, "rob" := 0, "roulette" := 0, "escape" := 0, "breakout" := 0]
  }

  /** create_default_user: the record a member gets on first contact. */
  function CreateDefaultUser(key: string, username: Option<string>, startingBalance: int): (a: Account)
    ensures a.pockets == 0 && a.savings == startingBalance && Total(a) == startingBalance
    ensures a.cooldowns.Keys == COOLDOWN_COMMANDS && forall c :: c in a.cooldowns ==> a.cooldowns[c] == 0
    ensures !a.injured && a.injuries == 0 && InjuryConsistent(a)
    ensures a.prison == None && a.lastRobbed == 0 && !a.beatChallenge
    ensures IsDigits(key) ==> a.userId == DecimalValue(key)
    ensures !IsDigits(key) ==> a.userId == 0
    ensures username.Some? && username.value != "" ==> a.username == username.value
    ensures (username.None? || username.value == "") ==> a.username == "User_" + key
  {
    Account(
      userId := if IsDigits(key) then DecimalValue(key) else 0,
      username := if username.Some? && username.value != "" then username.value else "User_" + key,
      pockets := 0,
      savings := startingBalance,
      cooldowns := DefaultCooldowns(),
      injured := false,
      injuries := 0,
      prison := None,
      lastRobbed := 0,
      beatChallenge := false)
  }

  /** The record get_user_data returns: the stored one, or a fresh default. */
  function UserOf(doc: Document, m: Member, startingBalance: int): Account
  {
    if m.key in doc then doc[m.key] else CreateDefaultUser(m.key, Some(m.displayName), startingBalance)
  }

  /** Fetching a member twice with no write in between yields the same record and document. */
  lemma GetUserDataIdempotent(doc: Document, m: Member, sb: int)
    ensures var d1 := doc[m.key := UserOf(doc, m, sb)];
            UserOf(d1, m, sb) == UserOf(doc, m, sb) && d1[m.key := UserOf(d1, m, sb)] == d1
    ensures m.key in doc ==> doc[m.key := UserOf(doc, m, sb)] == doc
  {
  }

  // ---------------------------------------------------------------------
  // Cache eviction

  function ExpiredKeys(c: CacheState, now: int): set<string>
  {
    set k | k in c.stamps && now - c.stamps[k] >= CACHE_TTL
  }

  /** Eviction of one expired key, with the response entry removed under its own key. */
  function EvictOne(c: CacheState, k: string): CacheState
  {
    if k in c.guilds then c.(guilds := c.guilds - {k})
    else if HasPrefix(k, RESPONSE_PREFIX) then c.(responses := c.responses - {k})
    else c.(config := c.config - {k})
  }

  /** The expired keys of `e` that name a cached response (not a guild). */
  function ResponseVictims(c0: CacheState, e: set<string>): set<string>
  {
    set k | k in e && k !in c0.guilds && HasPrefix(k, RESPONSE_PREFIX)
  }

  /** The expired keys of `e` that name a config entry (neither a guild nor a response). */
  function ConfigVictims(c0: CacheState, e: set<string>): set<string>
  {
    set k | k in e && k !in c0.guilds && !HasPrefix(k, RESPONSE_PREFIX)
  }

  /** The caches after evicting every key of `e` from the state c0 (timestamps untouched). */
  function Evicted(c0: CacheState, e: set<string>): CacheState
  {
    c0.(guilds := c0.guilds - e,
        responses := c0.responses - ResponseVictims(c0, e),
        config := c0.config - ConfigVictims(c0, e))
  }

  lemma VictimsGrow(c0: CacheState, e: set<string>, k: string)
    ensures ResponseVictims(c0, e + {k}) ==
            ResponseVictims(c0, e) + (if k !in c0.guilds && HasPrefix(k, RESPONSE_PREFIX) then {k} else {})
    ensures ConfigVictims(c0, e + {k}) ==
            ConfigVictims(c0, e) + (if k !in c0.guilds && !HasPrefix(k, RESPONSE_PREFIX) then {k} else {})
  {
  }

  lemma EvictStep(c0: CacheState, e: set<string>, k: string)
    requires k !in e
    ensures EvictOne(Evicted(c0, e), k) == Evicted(c0, e + {k})
  {
    VictimsGrow(c0, e, k);
    var c, c1 := Evicted(c0, e), Evicted(c0, e + {k});
    if k in c0.guilds {
      assert c.guilds - {k} == c1.guilds;
    } else if HasPrefix(k, RESPONSE_PREFIX) {
      assert c.guilds == c1.guilds;
      assert c.responses - {k} == c1.responses;
    } else {
      assert c.guilds == c1.guilds;
      assert c.config - {k} == c1.config;
    }
  }

  /** cleanup_expired_cache as intended: every expired key leaves its cache and the timestamp table. */
  function Cleanup(c: CacheState, now: int): (r: CacheState)
    ensures forall k :: k in r.stamps ==> now - r.stamps[k] < CACHE_TTL
    ensures forall k :: k in c.stamps && now - c.stamps[k] < CACHE_TTL ==> k in r.stamps && r.stamps[k] == c.stamps[k]
    ensures forall k :: k in r.guilds <==> k in c.guilds && k !in ExpiredKeys(c, now)
    ensures forall k :: k in ExpiredKeys(c, now) && k !in c.guilds && HasPrefix(k, RESPONSE_PREFIX) ==> k !in r.responses
    ensures forall k :: k in ExpiredKeys(c, now) && k !in c.guilds && !HasPrefix(k, RESPONSE_PREFIX) ==> k !in r.config
  {
    var ex := ExpiredKeys(c, now);
    Evicted(c, ex).(stamps := c.stamps - ex)
  }

  /** cleanup_expired_cache as written: a response timestamp "response_X" removes the response entry "X". */
  function CleanupAsWritten(c: CacheState, now: int): CacheState
  {
    var ex := ExpiredKeys(c, now);
    c.(guilds := c.guilds - ex,
       responses := c.responses - (set k | k in ex && k !in c.guilds && HasPrefix(k, RESPONSE_PREFIX) :: k[|RESPONSE_PREFIX|..]),
       config := c.config - (set k | k in ex && k !in c.guilds && !HasPrefix(k, RESPONSE_PREFIX)),
       stamps := c.stamps - ex)
  }

  /** The response cache is keyed "response_X", so the written eviction misses it: the entry outlives its timestamp. */
  lemma CleanupAsWrittenKeepsExpiredResponse()
    ensures var c := CacheState(map[], map["response_work" := map[]], map[], map["response_work" := 0]);
            "response_work" in ExpiredKeys(c, CACHE_TTL) &&
            "response_work" in CleanupAsWritten(c, CACHE_TTL).responses &&
            "response_work" !in CleanupAsWritten(c, CACHE_TTL).stamps &&
            "response_work" !in Cleanup(c, CACHE_TTL).responses
  {
    var c := CacheState(map[], map["response_work" := map[]], map[], map["response_work" := 0]);
    var ex := ExpiredKeys(c, CACHE_TTL);
    assert "response_work" in ex;
    assert ex == {"response_work"};
    assert HasPrefix("response_work", RESPONSE_PREFIX);
    assert "response_work"[|RESPONSE_PREFIX|..] == "work";
    var victims := set k | k in ex && k !in c.guilds && HasPrefix(k, RESPONSE_PREFIX) :: k[|RESPONSE_PREFIX|..];
    assert victims == {"work"};
  }

  /** invalidate_cache() as written: the guild timestamps are computed from the already-cleared cache. */
  function InvalidateAllAsWritten(c: CacheState): CacheState
  {
    var cleared := c.(guilds := map[]);
    cleared.(stamps := cleared.stamps - (set k | k in cleared.stamps && k in cleared.guilds))
  }

  /** invalidate_cache() as intended: drop every cached guild and its timestamp, keep the other timestamps. */
  function InvalidateAll(c: CacheState): (r: CacheState)
    ensures r.guilds == map[]
    ensures forall k :: k in c.guilds ==> k !in r.stamps
    ensures forall k :: k in c.stamps && k !in c.guilds ==> k in r.stamps && r.stamps[k] == c.stamps[k]
    ensures r.responses == c.responses && r.config == c.config
  {
    c.(guilds := map[], stamps := c.stamps - c.guilds.Keys)
  }

  /** As written, a cleared guild keeps its timestamp. */
  lemma InvalidateAllAsWrittenKeepsStamp()
    ensures var c := CacheState(map["1" := map[]], map[], map[], map["1" := 0]);
            "1" in InvalidateAllAsWritten(c).stamps && "1" !in InvalidateAll(c).stamps
  {
    var c := CacheState(map["1" := map[]], map[], map[], map["1" := 0]);
    var empty: map<string, Document> := map[];
    assert (set k | k in c.stamps && k in empty) == {};
  }

  /** The caches and files of the service. */
  class Store {
    var files: map<string, StoredFile>
    var settingsFile: Option<Settings>
    var cache: CacheState
    /** The guilds whose cached document is newer than their file: the last save's write failed. */
    ghost var unsaved: set<string>
    /** The cached settings are newer than the settings file: the last write failed. */
    ghost var settingsUnsaved: bool

    /**
     * Every cached guild equals what its file reads as, unless its last save
     * failed; the cached settings equal the settings file, unless their last
     * write failed.
     */
    ghost predicate Valid()
      reads this
    {
      (forall g :: g in cache.guilds && g !in unsaved ==> cache.guilds[g] == ReadGuildFile(files, g)) &&
      (SETTINGS_KEY in cache.config && !settingsUnsaved ==> cache.config[SETTINGS_KEY] == ReadSettings(settingsFile))
    }

    /**
     * initialize / _load_bot_settings: with no settings file the defaults are
     * cached and written (writeOk says whether the write succeeds); otherwise
     * the file's settings are cached.
     */
    constructor (files: map<string, StoredFile>, settingsFile: Option<Settings>, writeOk: bool, now: int)
      ensures Valid()
      ensures this.files == files && unsaved == {}
      ensures settingsFile.None? ==> this.settingsFile == (if writeOk then Some(DEFAULT_SETTINGS) else None)
      ensures settingsFile.None? ==> cache == CacheState(map[], map[], map[SETTINGS_KEY := DEFAULT_SETTINGS], map[SETTINGS_KEY := now])
      ensures settingsFile.Some? ==> this.settingsFile == settingsFile
      ensures settingsFile.Some? ==> cache == CacheState(map[], map[], map[SETTINGS_KEY := settingsFile.value], map[SETTINGS_KEY := now])
      ensures settingsUnsaved <==> settingsFile.None? && !writeOk
    {
      this.files := files;
      unsaved := {};
      if settingsFile.None? {
        this.settingsFile := if writeOk then Some(DEFAULT_SETTINGS) else None;
        settingsUnsaved := !writeOk;
        cache := CacheState(map[], map[], map[SETTINGS_KEY := DEFAULT_SETTINGS], map[SETTINGS_KEY := now]);
      } else {
        this.settingsFile := settingsFile;
        settingsUnsaved := false;
        cache := CacheState(map[], map[], map[SETTINGS_KEY := settingsFile.value], map[SETTINGS_KEY := now]);
      }
    }

    /** load_guild_data: serve a valid cache entry, otherwise read the file and refresh the cache. */
    method LoadGuildData(g: string, forceReload: bool, now: int) returns (d: Document)
      requires Valid()
      modifies this
      ensures Valid()
      ensures files == old(files) && settingsFile == old(settingsFile) && settingsUnsaved == old(settingsUnsaved)
      ensures !forceReload && g in old(cache.guilds) && IsCacheValid(old(cache), g, now) ==>
                d == old(cache.guilds[g]) && cache == old(cache) && unsaved == old(unsaved)
      ensures !(!forceReload && g in old(cache.guilds) && IsCacheValid(old(cache), g, now)) ==>
                d == ReadGuildFile(files, g) && unsaved == old(unsaved) - {g} &&
                cache == old(cache).(guilds := old(cache.guilds)[g := d], stamps := old(cache.stamps)[g := now])
      ensures g !in old(unsaved) ==> d == ReadGuildFile(files, g)
    {
      if !forceReload && g in cache.guilds && IsCacheValid(cache, g, now) {
        return cache.guilds[g];
      }
      d := ReadGuildFile(files, g);
      cache := cache.(guilds := cache.guilds[g := d], stamps := cache.stamps[g := now]);
      unsaved := unsaved - {g};
    }

    /**
     * save_guild_data: cache the document with a fresh timestamp, then write
     * the file; writeOk is whether _safe_save_json succeeds, and is returned.
     */
    method SaveGuildData(g: string, d: Document, writeOk: bool, now: int) returns (ok: bool)
      requires Valid()
      modifies this
      ensures Valid() && ok == writeOk
      ensures cache == old(cache).(guilds := old(cache.guilds)[g := d], stamps := old(cache.stamps)[g := now])
      ensures IsCacheValid(cache, g, now) && settingsFile == old(settingsFile) && settingsUnsaved == old(settingsUnsaved)
      ensures writeOk ==> files == old(files)[g := Intact(d)] && ReadGuildFile(files, g) == d && unsaved == old(unsaved) - {g}
      ensures !writeOk ==> files == old(files) && unsaved == old(unsaved) + {g}
    {
      cache := cache.(guilds := cache.guilds[g := d], stamps := cache.stamps[g := now]);
      if writeOk {
        files := files[g := Intact(d)];
        unsaved := unsaved - {g};
      } else {
        unsaved := unsaved + {g};
      }
      ok := writeOk;
    }

    /** invalidate_cache: one guild's entry and timestamp, or (no guild) every guild entry. */
    method InvalidateCache(g: Option<string>)
      requires Valid()
      modifies this
      ensures Valid() && files == old(files) && settingsFile == old(settingsFile)
      ensures unsaved == old(unsaved) && settingsUnsaved == old(settingsUnsaved)
      ensures g.Some? && g.value in old(cache.guilds) ==>
                cache == old(cache).(guilds := old(cache.guilds) - {g.value}, stamps := old(cache.stamps) - {g.value})
      ensures g.Some? && g.value !in old(cache.guilds) ==> cache == old(cache)
      ensures g.None? ==> cache == InvalidateAll(old(cache))
    {
      if g.Some? {
        if g.value in cache.guilds {
          cache := cache.(guilds := cache.guilds - {g.value}, stamps := cache.stamps - {g.value});
        }
      } else {
        cache := InvalidateAll(cache);
      }
    }

    /** cleanup_expired_cache: evict every entry whose timestamp reached the TTL, then drop those timestamps. */
    method CleanupExpiredCache(now: int)
      requires Valid()
      modifies this
      ensures Valid() && files == old(files) && settingsFile == old(settingsFile)
      ensures unsaved == old(unsaved) && settingsUnsaved == old(settingsUnsaved)
      ensures cache == Cleanup(old(cache), now)
    {
      var expired := EvictExpired(now);
      DropStamps(expired);
    }

    /** The first loop of cleanup_expired_cache: collect the expired keys, evicting each from its cache. */
    method EvictExpired(now: int) returns (expired: set<string>)
      modifies this`cache
      ensures expired == ExpiredKeys(old(cache), now)
      ensures cache == Evicted(old(cache), expired)
    {
      var c0 := cache;
      var todo := c0.stamps.Keys;
      expired := {};
      while todo != {}
        invariant todo <= c0.stamps.Keys
        invariant expired == ExpiredKeys(c0, now) - todo
        invariant cache == Evicted(c0, expired)
        decreases |todo|
      {
        var k :| k in todo;
        if now - c0.stamps[k] >= CACHE_TTL {
          EvictStep(c0, expired, k);
          cache := EvictOne(cache, k);
          expired := expired + {k};
        }
        todo := todo - {k};
      }
    }

    /** The second loop of cleanup_expired_cache: drop the timestamps of the expired keys. */
    method DropStamps(expired: set<string>)
      modifies this`cache
      ensures cache == old(cache).(stamps := old(cache.stamps) - expired)
    {
      var rest := expired;
      while rest != {}
        invariant rest <= expired
        invariant cache == old(cache).(stamps := old(cache.stamps) - (expired - rest))
        decreases |rest|
      {
        var k :| k in rest;
        assert old(cache.stamps) - (expired - rest) - {k} == old(cache.stamps) - (expired - (rest - {k}));
        cache := cache.(stamps := cache.stamps - {k});
        rest := rest - {k};
      }
      assert expired - rest == expired;
    }

    /** get_bot_setting: reload the settings when their cache entry expired, then look the name up. */
    method GetBotSetting(name: string, default: SettingValue, now: int) returns (v: SettingValue)
      requires Valid()
      modifies this
      ensures Valid() && files == old(files) && settingsFile == old(settingsFile) && unsaved == old(unsaved)
      ensures IsCacheValid(old(cache), SETTINGS_KEY, now) ==>
                cache == old(cache) && settingsUnsaved == old(settingsUnsaved) &&
                v == SettingOr(if SETTINGS_KEY in old(cache.config) then old(cache.config[SETTINGS_KEY]) else map[], name, default)
      ensures !IsCacheValid(old(cache), SETTINGS_KEY, now) ==>
                !settingsUnsaved && v == SettingOr(ReadSettings(settingsFile), name, default) &&
                cache == old(cache).(config := old(cache.config)[SETTINGS_KEY := ReadSettings(settingsFile)],
                                     stamps := old(cache.stamps)[SETTINGS_KEY := now])
      ensures SETTINGS_KEY in old(cache.config) && !old(settingsUnsaved) ==> v == SettingOr(ReadSettings(settingsFile), name, default)
    {
      if !IsCacheValid(cache, SETTINGS_KEY, now) {
        cache := cache.(config := cache.config[SETTINGS_KEY := ReadSettings(settingsFile)],
                        stamps := cache.stamps[SETTINGS_KEY := now]);
        settingsUnsaved := false;
      }
      var s := if SETTINGS_KEY in cache.config then cache.config[SETTINGS_KEY] else map[];
      v := SettingOr(s, name, default);
    }

    /**
     * set_bot_setting: update the cached settings (or an empty table when none are cached),
     * refresh their timestamp and write them to the settings file; writeOk is whether
     * _safe_save_json succeeds, and is returned.
     */
    method SetBotSetting(name: string, value: SettingValue, writeOk: bool, now: int) returns (ok: bool)
      requires Valid()
      modifies this
      ensures Valid() && ok == writeOk && files == old(files) && unsaved == old(unsaved)
      ensures var base := if SETTINGS_KEY in old(cache.config) then old(cache.config[SETTINGS_KEY]) else map[];
              cache == old(cache).(config := old(cache.config)[SETTINGS_KEY := base[name := value]],
                                   stamps := old(cache.stamps)[SETTINGS_KEY := now]) &&
              settingsFile == (if writeOk then Some(base[name := value]) else old(settingsFile))
      ensures settingsUnsaved == !writeOk
      ensures IsCacheValid(cache, SETTINGS_KEY, now) && SettingOr(cache.config[SETTINGS_KEY], name, IntValue(0)) == value
      ensures writeOk ==> SettingOr(ReadSettings(settingsFile), name, IntValue(0)) == value
    {
      var settings := if SETTINGS_KEY in cache.config then cache.config[SETTINGS_KEY] else map[];
      settings := settings[name := value];
      cache := cache.(config := cache.config[SETTINGS_KEY := settings], stamps := cache.stamps[SETTINGS_KEY := now]);
      if writeOk {
        settingsFile := Some(settings);
      }
      settingsUnsaved := !writeOk;
      ok := writeOk;
    }
  }

  /**
   * One guild's document as the economy commands see it. While every save
   * succeeds the Store's invariant makes every load return the file's
   * content, so a command's load / modify / save sequence acts on this
   * single document.
   */
  class Ledger {
    var doc: Document
    /** The starting balance read from the cached settings (50 by default). */
    const startingBalance: int

    constructor (doc: Document, startingBalance: int)
      ensures this.doc == doc && this.startingBalance == startingBalance
    {
      this.doc := doc;
      this.startingBalance := startingBalance;
    }

    /** get_user_data: the member's record, created and saved with defaults when absent. */
    method GetUserData(m: Member) returns (a: Account)
      modifies this
      ensures a == UserOf(old(doc), m, startingBalance)
      ensures doc == old(doc)[m.key := a]
      ensures m.key in old(doc) ==> doc == old(doc)
    {
      a := UserOf(doc, m, startingBalance);
      if m.key !in doc {
        doc := doc[m.key := a];
      }
    }

    /** The load / assign / save sequence: store one record under its key. */
    method Put(key: string, a: Account)
      modifies this
      ensures doc == old(doc)[key := a]
    {
      doc := doc[key := a];
    }
  }
}
