/**
 * The package-index configuration written to `pip.ini`, as the nested
 * section -> option -> value map a `ConfigParser` holds after `read_dict`.
 */
module PipConfig {
  import opened Wrappers

  type Section = map<string, string>
  type Config = map<string, Section>

  /** `PIP_CONFIG`: environment name (or `default`) -> configuration to load. */
  type Table = map<string, Config>

  const DefaultEntry := "default"
  const GlobalSection := "global"
  const CacheDirOption := "cache-dir"

  /** Why building the configuration raises. */
  datatype BuildError =
    | NoDefaultEntry           // `PIP_CONFIG['default']` raises KeyError
    | NoEntry(name: string)    // `PIP_CONFIG.get(name)` is None and `read_dict` fails on it
    | NoGlobalSection(name: string)  // `set('global', ...)` raises NoSectionError

  /**
   * `pip_ini_config` for environment `name`: load that name's entry, then
   * force `global.cache-dir`. The `default` entry is evaluated (so it must
   * exist) but only ever passed as `read_dict`'s source label, never merged.
   */
  function Build(table: Table, name: string, cacheDir: string): (r: Result<Config, BuildError>)
    ensures r.Success? <==> DefaultEntry in table && name in table && GlobalSection in table[name]
    ensures DefaultEntry !in table ==> r == Failure(NoDefaultEntry)
    ensures DefaultEntry in table && name !in table ==> r == Failure(NoEntry(name))
    ensures DefaultEntry in table && name in table && GlobalSection !in table[name] ==>
      r == Failure(NoGlobalSection(name))
    ensures r.Success? ==>
      && r.value.Keys == table[name].Keys
      && r.value[GlobalSection].Keys == table[name][GlobalSection].Keys + {CacheDirOption}
      && r.value[GlobalSection][CacheDirOption] == cacheDir
      && (forall k :: k in table[name][GlobalSection] && k != CacheDirOption ==>
            r.value[GlobalSection][k] == table[name][GlobalSection][k])
      && (forall s :: s in table[name] && s != GlobalSection ==> r.value[s] == table[name][s])
  {
    if DefaultEntry !in table then Failure(NoDefaultEntry)
    else if name !in table then Failure(NoEntry(name))
    else
      var loaded := table[name];
      if GlobalSection !in loaded then Failure(NoGlobalSection(name))
      else Success(loaded[GlobalSection := loaded[GlobalSection][CacheDirOption := cacheDir]])
  }

  /**
   * What the `default` entry holds never reaches the result, for any other
   * name: replacing it leaves the built configuration unchanged.
   */
  lemma DefaultEntryNotMerged(table: Table, name: string, cacheDir: string, other: Config)
    requires name != DefaultEntry && DefaultEntry in table
    ensures Build(table[DefaultEntry := other], name, cacheDir) == Build(table, name, cacheDir)
  {
  }

  /** Building is idempotent: rebuilding from a built entry yields the same configuration. */
  lemma RebuildIsStable(table: Table, name: string, cacheDir: string)
    requires Build(table, name, cacheDir).Success?
    ensures Build(table[name := Build(table, name, cacheDir).value], name, cacheDir)
         == Build(table, name, cacheDir)
  {
    var loaded := table[name];
    var global := loaded[GlobalSection][CacheDirOption := cacheDir];
    var built := loaded[GlobalSection := global];
    assert built[GlobalSection][CacheDirOption := cacheDir] == global;
    assert built[GlobalSection := global] == built;
  }

  /** The `special` example: extra index URL kept beside the forced cache directory. */
  lemma ExtraIndexKept(cacheDir: string)
    ensures var table := map[DefaultEntry := map[], "special" := map[GlobalSection := map["extra-index-url" := "https://x"]]];
            Build(table, "special", cacheDir)
            == Success(map[GlobalSection := map["extra-index-url" := "https://x", CacheDirOption := cacheDir]])
  {
    var global := map["extra-index-url" := "https://x"];
    var table := map[DefaultEntry := map[], "special" := map[GlobalSection := global]];
    assert "special" in table && table["special"] == map[GlobalSection := global];
    assert map[GlobalSection := global][GlobalSection := global[CacheDirOption := cacheDir]]
        == map[GlobalSection := global[CacheDirOption := cacheDir]];
  }
}
