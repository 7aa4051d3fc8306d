/**
 * Themed reply texts. Replies are grouped by category, one JSON file per
 * category, each mapping a response key to a list of alternatives; a
 * missing or unreadable file falls back to the built-in defaults. Loaded
 * categories are cached and never evicted.
 */
module ResponseManager {
  import opened Records

  /** response key -> alternatives */
  type Table = map<string, seq<string>>

  const CATEGORIES: seq<string> := ["work", "crime", "death", "injury", "prison", "rob"]
  const CUSTOM: string := "custom"

  /** DEFAULT_RESPONSES, category by category. */
  const DEFAULT_RESPONSES: map<string, Table> := map[
    "work" := map[
      "work" := ["You worked hard and earned **{amount}** Medals."],
      "work_rare_success" := ["You hit the jackpot and earned **{amount}** Medals instead of your usual **{original}** Medals!"]],
    "crime" := map[
      "crime_success" := ["Your crime was successful! You stole **{amount}** Medals."],
      "crime_rare_success" := ["A perfect heist! You earned **{amount}** Medals instead of the expected **{original}** Medals!"]],
    "death" := map[
      "death" := ["You died and lost **{amount}** Medals."]],
    "injury" := map[
      "injury" := ["You were injured and lost **{amount}** Medals for medical treatment."]],
    "prison" := map[
      "prison" := ["You were caught and sent to prison!"],
      "escape_success" := ["You successfully escaped from prison."],
      "escape_failure" := ["Your escape attempt failed."]],
    "rob" := map[
      "rob_success" := ["You successfully robbed {target} and got **{amount}** Medals."],
      "rob_injury" := ["You failed to rob {target} and were injured, losing **{amount}** Medals."],
      "rob_death" := ["You died trying to rob {target} and lost **{amount}** Medals."]]
  ]

  // ---------------------------------------------------------------------
  // Tables
  // ---------------------------------------------------------------------

  /** DEFAULT_RESPONSES.get(category, {}). */
  function DefaultFor(category: string): Table
  {
    if category in DEFAULT_RESPONSES then DEFAULT_RESPONSES[category] else map[]
  }

  /**
   * The table _load_category yields: the cached one, else the file's,
   * else the defaults. files holds the category files that exist and parse.
   */
  function View(cache: map<string, Table>, files: map<string, Table>, category: string): Table
  {
    if category in cache then cache[category]
    else if category in files then files[category]
    else DefaultFor(category)
  }

  /** A missing category file means the built-in defaults. */
  lemma MissingFileFallsBack(cache: map<string, Table>, files: map<string, Table>, category: string)
    requires category !in cache && category !in files
    ensures View(cache, files, category) == DefaultFor(category)
    ensures category == "prison" ==> "escape_failure" in View(cache, files, category)
    ensures category !in CATEGORIES ==> View(cache, files, category) == map[]
  {
  }

  // ---------------------------------------------------------------------
  // The category of a key
  // ---------------------------------------------------------------------

  /** The first category c in cats with the key starting "c_". */
  function PrefixCategory(key: string, cats: seq<string>): (r: Option<string>)
    ensures r.Some? ==> r.value in cats && HasPrefix(key, r.value + "_")
    ensures r.None? <==> forall c :: c in cats ==> !HasPrefix(key, c + "_")
  {
    if cats == [] then None
    else if HasPrefix(key, cats[0] + "_") then Some(cats[0])
    else PrefixCategory(key, cats[1..])
  }

  /** The first category in cats whose table holds the key. */
  function TableCategory(key: string, cats: seq<string>, cache: map<string, Table>, files: map<string, Table>)
    : (r: Option<string>)
    ensures r.Some? ==> r.value in cats && key in View(cache, files, r.value)
    ensures r.None? <==> forall c :: c in cats ==> key !in View(cache, files, c)
  {
    if cats == [] then None
    else if key in View(cache, files, cats[0]) then Some(cats[0])
    else TableCategory(key, cats[1..], cache, files)
  }

  /**
   * _get_category_from_key: the key itself when it names a category, else
   * the category it is prefixed with, else the first category whose table
   * holds it, else none.
   */
  function CategoryOf(key: string, cache: map<string, Table>, files: map<string, Table>): (r: Option<string>)
    ensures key in CATEGORIES ==> r == Some(key)
    ensures r.Some? ==> r.value in CATEGORIES
    ensures r.Some? && key !in CATEGORIES ==> HasPrefix(key, r.value + "_") || key in View(cache, files, r.value)
    ensures r.None? <==>
              key !in CATEGORIES &&
              forall c :: c in CATEGORIES ==> !HasPrefix(key, c + "_") && key !in View(cache, files, c)
  {
    if key in CATEGORIES then Some(key)
    else
      var p := PrefixCategory(key, CATEGORIES);
      if p.Some? then p else TableCategory(key, CATEGORIES, cache, files)
  }

  /** A key starting "name_", with no underscore in name, splits at that underscore. */
  lemma {:induction false} PrefixIsBeforeUnderscore(key: string, name: string)
    requires '_' !in name && HasPrefix(key, name + "_")
    ensures BeforeUnderscore(key) == name
    decreases |name|
  {
    assert key[..|name| + 1] == name + "_";
    assert key[|name|] == (name + "_")[|name|];
    if name != [] {
      assert key[0] == name[0];
      assert key[1..][..|name|] == key[..|name| + 1][1..] == name[1..] + "_";
      PrefixIsBeforeUnderscore(key[1..], name[1..]);
    }
  }

  /** No category name holds an underscore, so at most one can prefix a key as "c_". */
  lemma PrefixMatchIsUnique(key: string, c1: string, c2: string)
    requires c1 in CATEGORIES && c2 in CATEGORIES
    requires HasPrefix(key, c1 + "_") && HasPrefix(key, c2 + "_")
    ensures c1 == c2
  {
    assert '_' !in c1 && '_' !in c2;
    PrefixIsBeforeUnderscore(key, c1);
    PrefixIsBeforeUnderscore(key, c2);
  }

  // ---------------------------------------------------------------------
  // Guessing a category for a new key
  // ---------------------------------------------------------------------

  /** `sub in s` for strings: sub starts at some position of s. */
  function Contains(s: string, sub: string): (r: bool)
    ensures HasPrefix(s, sub) ==> r
    ensures |s| < |sub| ==> !r
    decreases |s|
  {
    if HasPrefix(s, sub) then true
    else if s == [] then false
    else Contains(s[1..], sub)
  }

  /** key.split("_")[0]: the text before the first underscore. */
  function BeforeUnderscore(s: string): (r: string)
    ensures HasPrefix(s, r) && '_' !in r
    ensures '_' in s ==> |r| < |s| && s[|r|] == '_'
    ensures '_' !in s ==> r == s
  {
    if s == [] then []
    else if s[0] == '_' then []
    else
      var rest := BeforeUnderscore(s[1..]);
      assert s == [s[0]] + s[1..];
      [s[0]] + rest
  }

  /** The first category in cats contained in the key. */
  function ContainedCategory(key: string, cats: seq<string>): (r: Option<string>)
    ensures r.Some? ==> r.value in cats && Contains(key, r.value)
    ensures r.None? <==> forall c :: c in cats ==> !Contains(key, c)
  {
    if cats == [] then None
    else if Contains(key, cats[0]) then Some(cats[0])
    else ContainedCategory(key, cats[1..])
  }

  /**
   * add_response's guess for a key with no category: a category named
   * inside it, else the text before the first underscore when there is
   * one and it is not empty, else "custom".
   */
  function GuessCategory(key: string): (r: string)
    ensures r != ""
    ensures ContainedCategory(key, CATEGORIES).Some? ==> r in CATEGORIES && Contains(key, r)
    ensures ContainedCategory(key, CATEGORIES).None? && '_' in key && BeforeUnderscore(key) != "" ==>
              r == BeforeUnderscore(key)
    ensures ContainedCategory(key, CATEGORIES).None? && ('_' !in key || BeforeUnderscore(key) == "") ==> r == CUSTOM
  {
    var contained := ContainedCategory(key, CATEGORIES);
    if contained.Some? then contained.value
    else if '_' in key && BeforeUnderscore(key) != "" then BeforeUnderscore(key)
    else CUSTOM
  }

  /** The category add_response files a key under. */
  function AddCategory(key: string, cache: map<string, Table>, files: map<string, Table>): string
  {
    match CategoryOf(key, cache, files)
    case Some(c) => c
    case None => GuessCategory(key)
  }

  /** The table with one more alternative for the key, at the end of its list. */
  function Appended(t: Table, key: string, response: string): (r: Table)
    ensures r.Keys == t.Keys + {key}
    ensures forall k :: k in t && k != key ==> r[k] == t[k]
    ensures r[key] == (if key in t then t[key] else []) + [response]
  {
    t[key := (if key in t then t[key] else []) + [response]]
  }

  // ---------------------------------------------------------------------
  // get_response
  // ---------------------------------------------------------------------

  /**
   * get_response before formatting: the two error texts, else the
   * alternative that the random choice picks.
   */
  function ResponseFor(key: string, pick: nat, cache: map<string, Table>, files: map<string, Table>): (s: string)
    ensures CategoryOf(key, cache, files).None? ==> s == "No response found for key: " + key
    ensures CategoryOf(key, cache, files).Some? ==>
              var t := View(cache, files, CategoryOf(key, cache, files).value);
              (key !in t || t[key] == [] ==> s == "No responses configured for: " + key) &&
              (key in t && t[key] != [] ==> s in t[key])
  {
    match CategoryOf(key, cache, files)
    case None => "No response found for key: " + key
    case Some(c) =>
      var t := View(cache, files, c);
      if key !in t || t[key] == [] then "No responses configured for: " + key
      else t[key][pick % |t[key]|]
  }

  // ---------------------------------------------------------------------
  // Adding a response, then asking for it
  // ---------------------------------------------------------------------

  /**
   * Changing one category's table so that it holds the key leaves the
   * table search pointing there, provided it pointed nowhere else before.
   */
  lemma {:induction false} TableCategoryAfterAdd(key: string, cats: seq<string>, cat: string,
                                                 cache: map<string, Table>, files: map<string, Table>,
                                                 cache': map<string, Table>, files': map<string, Table>)
    requires cat in cats && key in View(cache', files', cat)
    requires forall c :: c in cats && c != cat ==> View(cache', files', c) == View(cache, files, c)
    requires TableCategory(key, cats, cache, files) in {None, Some(cat)}
    ensures TableCategory(key, cats, cache', files') == Some(cat)
    decreases |cats|
  {
    if cats[0] != cat {
      assert key !in View(cache, files, cats[0]);
      TableCategoryAfterAdd(key, cats[1..], cat, cache, files, cache', files');
    }
  }

  /**
   * Giving the category cat a table that holds the key makes the key's
   * category cat, provided it had none before or had cat already.
   */
  lemma CategoryAfterAdd(key: string, cat: string, cache: map<string, Table>, files: map<string, Table>,
                         cache': map<string, Table>, files': map<string, Table>)
    requires cat in CATEGORIES && key in View(cache', files', cat)
    requires forall c :: c != cat ==> View(cache', files', c) == View(cache, files, c)
    requires CategoryOf(key, cache, files) in {None, Some(cat)}
    ensures CategoryOf(key, cache', files') == Some(cat)
  {
    if key !in CATEGORIES && PrefixCategory(key, CATEGORIES).None? {
      TableCategoryAfterAdd(key, CATEGORIES, cat, cache, files, cache', files');
    }
  }

  /**
   * After add_response files the new text under one of the six
   * categories (cat, the category it chose), the key answers with it:
   * the new text is the last alternative of the key's list. cache' and
   * files' are any state whose tables differ from the old ones only at cat,
   * where the text was appended.
   */
  lemma AddThenGet(key: string, response: string, cat: string, cache: map<string, Table>, files: map<string, Table>,
                   cache': map<string, Table>, files': map<string, Table>)
    requires cat == AddCategory(key, cache, files) && cat in CATEGORIES
    requires View(cache', files', cat) == Appended(View(cache, files, cat), key, response)
    requires forall c :: c != cat ==> View(cache', files', c) == View(cache, files, c)
    ensures CategoryOf(key, cache', files') == Some(cat)
    ensures key in View(cache', files', cat)
    ensures ResponseFor(key, |View(cache', files', cat)[key]| - 1, cache', files') == response
  {
    assert CategoryOf(key, cache, files) in {None, Some(cat)};
    CategoryAfterAdd(key, cat, cache, files, cache', files');
    LastAlternative(key, response, cat, cache', files');
  }

  /** With the key's category cat, the last alternative of its list is the one picked at the last index. */
  lemma LastAlternative(key: string, response: string, cat: string, cache': map<string, Table>, files': map<string, Table>)
    requires CategoryOf(key, cache', files') == Some(cat)
    requires key in View(cache', files', cat)
    requires var list := View(cache', files', cat)[key]; list != [] && list[|list| - 1] == response
    ensures ResponseFor(key, |View(cache', files', cat)[key]| - 1, cache', files') == response
  {
    var list := View(cache', files', cat)[key];
    assert (|list| - 1) % |list| == |list| - 1;
  }

  /**
   * A key filed under any other category (a guessed prefix or "custom")
   * is never found again by get_response.
   */
  lemma AddedOutsideCategoriesIsLost(key: string, response: string, cat: string, cache: map<string, Table>,
                                     files: map<string, Table>, cache': map<string, Table>, files': map<string, Table>,
                                     pick: nat)
    requires cat == AddCategory(key, cache, files) && cat !in CATEGORIES
    requires forall c :: c != cat ==> View(cache', files', c) == View(cache, files, c)
    ensures ResponseFor(key, pick, cache', files') == "No response found for key: " + key
  {
    assert CategoryOf(key, cache, files).None?;
  }

  class Responses {
    /** _responses_cache: category -> its table. */
    var cache: map<string, Table>
    /** The category files that exist and parse. */
    var files: map<string, Table>

    constructor (files: map<string, Table>)
      ensures cache == map[] && this.files == files
    {
      cache := map[];
      this.files := files;
    }

    /** _load_category: the cache, else the file, else the defaults, whichever comes first is cached. */
    method LoadCategory(category: string) returns (t: Table)
      modifies this`cache
      ensures t == View(old(cache), files, category)
      ensures cache == old(cache)[category := t]
      ensures forall c :: View(cache, files, c) == View(old(cache), files, c)
    {
      if category in cache {
        return cache[category];
      }
      if category in files {
        t := files[category];
        cache := cache[category := t];
        return;
      }
      t := DefaultFor(category);
      cache := cache[category := t];
    }

    /** _get_category_from_key: exact name, then prefix, then (loading each in turn) table membership. */
    method GetCategoryFromKey(key: string) returns (r: Option<string>)
      modifies this`cache
      ensures r == CategoryOf(key, old(cache), files)
      ensures forall c :: View(cache, files, c) == View(old(cache), files, c)
    {
      if key in CATEGORIES {
        return Some(key);
      }
      r := PrefixSearch(key, CATEGORIES);
      if r.None? {
        r := TableSearch(key, CATEGORIES);
      }
    }

    /** The prefix loop of _get_category_from_key: the first category c of cats with the key starting "c_". */
    static method PrefixSearch(key: string, cats: seq<string>) returns (r: Option<string>)
      ensures r == PrefixCategory(key, cats)
    {
      var i := 0;
      while i < |cats|
        invariant 0 <= i <= |cats|
        invariant PrefixCategory(key, cats[i..]) == PrefixCategory(key, cats)
      {
        assert cats[i..][1..] == cats[i + 1..];
        if HasPrefix(key, cats[i] + "_") {
          return Some(cats[i]);
        }
        i := i + 1;
      }
      r := None;
    }

    /** The table loop of _get_category_from_key: each category of cats loaded in turn until one holds the key. */
    method TableSearch(key: string, cats: seq<string>) returns (r: Option<string>)
      modifies this`cache
      ensures r == TableCategory(key, cats, old(cache), files)
      ensures forall c :: View(cache, files, c) == View(old(cache), files, c)
    {
      var i := 0;
      while i < |cats|
        invariant 0 <= i <= |cats|
        invariant forall c :: View(cache, files, c) == View(old(cache), files, c)
        invariant TableCategory(key, cats[i..], old(cache), files) == TableCategory(key, cats, old(cache), files)
      {
        assert cats[i..][1..] == cats[i + 1..];
        var t := LoadCategory(cats[i]);
        if key in t {
          return Some(cats[i]);
        }
        i := i + 1;
      }
      r := None;
    }

    /** get_response, with the random choice as a parameter and formatting left out. */
    method GetResponse(key: string, pick: nat) returns (s: string)
      modifies this`cache
      ensures s == ResponseFor(key, pick, old(cache), files)
      ensures forall c :: View(cache, files, c) == View(old(cache), files, c)
    {
      var category := GetCategoryFromKey(key);
      if category.None? {
        return "No response found for key: " + key;
      }
      var responses := LoadCategory(category.value);
      if key !in responses || responses[key] == [] {
        return "No responses configured for: " + key;
      }
      s := responses[key][pick % |responses[key]|];
    }

    /**
     * add_response: file the key under its category (guessing one when it
     * has none) and append the text. The cached table is the one appended
     * to, so the cache holds the new text even when writing the file fails.
     */
    method AddResponse(key: string, response: string, writeOk: bool) returns (ok: bool)
      modifies this
      ensures ok == writeOk
      ensures var cat := AddCategory(key, old(cache), old(files));
              var t := Appended(View(old(cache), old(files), cat), key, response);
              cat in cache && cache[cat] == t &&
              files == (if writeOk then old(files)[cat := t] else old(files)) &&
              View(cache, files, cat) == t &&
              forall c :: c != cat ==> View(cache, files, c) == View(old(cache), old(files), c)
    {
      var found := GetCategoryFromKey(key);
      var category: string;
      if found.Some? {
        category := found.value;
      } else {
        category := GuessCategory(key);
      }
      assert category == AddCategory(key, old(cache), old(files));
      ok := AppendTo(category, key, response, writeOk);
    }

    /** The tail of add_response: load the category, append the text, cache it and, if the write succeeds, save it. */
    method AppendTo(category: string, key: string, response: string, writeOk: bool) returns (ok: bool)
      modifies this
      ensures ok == writeOk
      ensures var t := Appended(View(old(cache), old(files), category), key, response);
              cache == old(cache)[category := t] &&
              files == (if writeOk then old(files)[category := t] else old(files)) &&
              View(cache, files, category) == t &&
              forall c :: c != category ==> View(cache, files, c) == View(old(cache), old(files), c)
    {
      var responses := LoadCategory(category);
      responses := Appended(responses, key, response);
      cache := cache[category := responses];
      if writeOk {
        files := files[category := responses];
      }
      ok := writeOk;
    }
  }
}
