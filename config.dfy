/** The adventure configuration: the id, title and paths under which the engine finds an
    adventure's data, built from the adventure's `game.json` manifest or from the defaults,
    and the module-level current configuration. */
module Config {
  import opened Base

  const DefaultId := "adventure"
  const DefaultTitle := "NRW Noir Adventure"
  const DefaultDataDir := "data"
  const DefaultWorldFile := "world.json"

  datatype AdventureConfig = AdventureConfig(id: string, title: string, basePath: string,
                                             dataPath: string, worldFile: string)

  /** A `game.json` manifest; a missing field is `None`. */
  datatype Manifest = Manifest(id: Option<string>, title: Option<string>,
                               dataPath: Option<string>, worldFile: Option<string>)

  /** How `setActiveAdventure` ends: with the new configuration, or with the message of the
      error it throws. */
  datatype Loaded = Loaded(config: AdventureConfig) | Failed(message: string)

  predicate EndsWithSlash(s: string) {
    |s| > 0 && s[|s| - 1] == '/'
  }

  /** `s.replace(/\/$/, '')`: one trailing slash removed. */
  function DropTrailingSlash(s: string): (r: string)
    ensures EndsWithSlash(s) ==> r + "/" == s
    ensures !EndsWithSlash(s) ==> r == s
  {
    if EndsWithSlash(s) then s[..|s| - 1] else s
  }

  /** `s.replace(/^\.\//, '')`: one leading `./` removed. */
  function DropDotSlash(s: string): (r: string)
    ensures StartsWith(s, "./") ==> "./" + r == s
    ensures !StartsWith(s, "./") ==> r == s
  {
    if StartsWith(s, "./") then s[2..] else s
  }

  /** `/^https?:\/\//.test(s) || s.startsWith('/')`. */
  predicate IsAbsolute(s: string) {
    StartsWith(s, "http://") || StartsWith(s, "https://") || StartsWith(s, "/")
  }

  /** `normalizePath(basePath, relativePath)`; a missing relative path is the empty one. */
  function NormalizePath(base: string, rel: string): (r: string)
    ensures rel == "" ==> r == base
    ensures rel != "" && IsAbsolute(rel) ==> r + (if EndsWithSlash(rel) then "/" else "") == rel
    ensures rel != "" && !IsAbsolute(rel) ==>
      StartsWith(r, DropTrailingSlash(base) + "/") &&
      var tail := r[|DropTrailingSlash(base)| + 1..];
      (if StartsWith(rel, "./") then "./" else "") + tail
        + (if EndsWithSlash(DropDotSlash(rel)) then "/" else "") == rel
  {
    if rel == "" then base
    else if IsAbsolute(rel) then DropTrailingSlash(rel)
    else
      var b := DropTrailingSlash(base);
      var t := DropTrailingSlash(DropDotSlash(rel));
      var r := b + "/" + t;
      assert r[..|b| + 1] == b + "/";
      assert r[|b| + 1..] == t;
      r
  }

  /** A plain relative name is joined to a base without a trailing slash by one slash. */
  lemma NormalizeJoins(base: string, rel: string)
    requires !EndsWithSlash(base) && rel != "" && !IsAbsolute(rel)
    requires !StartsWith(rel, "./") && !EndsWithSlash(rel)
    ensures NormalizePath(base, rel) == base + "/" + rel
  {
  }

  /** `./js/games/<id>`, the folder of an adventure. */
  function BasePath(id: string): (p: string)
    ensures StartsWith(p, "./js/games/") && p[11..] == id
  {
    "./js/games/" + id
  }

  /** The configuration `getAdventureConfig` creates when none is set. */
  function DefaultConfig(): (c: AdventureConfig)
    ensures c.id == DefaultId && c.title == DefaultTitle && c.worldFile == DefaultWorldFile
    ensures c.basePath == BasePath(DefaultId) && c.dataPath == c.basePath + "/" + DefaultDataDir
  {
    var base := BasePath(DefaultId);
    AdventureConfig(DefaultId, DefaultTitle, base, base + "/" + DefaultDataDir, DefaultWorldFile)
  }

  /** The configuration `setActiveAdventure` builds from a manifest: each field from the
      manifest when it is present and non-empty, else its default. */
  function FromManifest(desiredId: string, m: Manifest): (c: AdventureConfig)
    ensures Truthy(m.id) ==> c.id == m.id.value
    ensures !Truthy(m.id) ==> c.id == desiredId
    ensures Truthy(m.title) ==> c.title == m.title.value
    ensures !Truthy(m.title) ==> c.title == DefaultTitle
    ensures c.basePath == BasePath(desiredId)
    ensures Truthy(m.dataPath) ==> c.dataPath == NormalizePath(c.basePath, m.dataPath.value)
    ensures !Truthy(m.dataPath) ==> c.dataPath == NormalizePath(c.basePath, DefaultDataDir)
    ensures Truthy(m.worldFile) ==> c.worldFile == m.worldFile.value
    ensures !Truthy(m.worldFile) ==> c.worldFile == DefaultWorldFile
  {
    var base := BasePath(desiredId);
    AdventureConfig(OrElse(m.id, desiredId), OrElse(m.title, DefaultTitle), base,
                    NormalizePath(base, OrElse(m.dataPath, DefaultDataDir)),
                    OrElse(m.worldFile, DefaultWorldFile))
  }

  /** For the default adventure, an empty manifest gives the default configuration: the two
      constructions agree. */
  lemma EmptyManifestIsDefault()
    ensures FromManifest(DefaultId, Manifest(None, None, None, None)) == DefaultConfig()
  {
    var base := BasePath(DefaultId);
    assert base[|base| - 1] == 'e';
    assert DefaultDataDir[0] == 'd' && |DefaultDataDir| == 4;
    NormalizeJoins(base, DefaultDataDir);
  }

  /** `getAdventureConfig()` on the current configuration. */
  function Current(current: Option<AdventureConfig>): (c: AdventureConfig)
    ensures current.Some? ==> c == current.value
    ensures current.None? ==> c == DefaultConfig()
  {
    if current.Some? then current.value else DefaultConfig()
  }

  /** `${basePath}/game.json`. */
  function ManifestUrl(id: string): string {
    BasePath(id) + "/game.json"
  }

  /** The adventure `setActiveAdventure` loads: the requested one, else the current one. */
  function DesiredId(current: Option<AdventureConfig>, requested: Option<string>): string {
    if Truthy(requested) then requested.value else Current(current).id
  }

  /** `setActiveAdventure(adventureId)` as a value. `manifests` holds the manifests the
      server delivers, by URL: a URL it does not hold is a failed fetch. Without a requested
      id the current configuration is read first, which sets the default when none is set. */
  function Activate(current: Option<AdventureConfig>, requested: Option<string>,
                    manifests: map<string, Manifest>): (r: (Option<AdventureConfig>, Loaded))
    ensures var url := ManifestUrl(DesiredId(current, requested));
      r.1.Loaded? <==> url in manifests
    ensures var desired := DesiredId(current, requested);
      r.1.Loaded? ==>
        r.0 == Some(r.1.config) && r.1.config == FromManifest(desired, manifests[ManifestUrl(desired)])
    ensures r.1.Failed? ==>
      r.1.message == "Konnte Adventure nicht laden (" + ManifestUrl(DesiredId(current, requested)) + ")"
    ensures r.1.Failed? && (current.Some? || Truthy(requested)) ==> r.0 == current
    ensures r.1.Failed? && current.None? && !Truthy(requested) ==> r.0 == Some(DefaultConfig())
  {
    var cur := if Truthy(requested) then current else Some(Current(current));
    var desired := DesiredId(current, requested);
    var url := ManifestUrl(desired);
    if url !in manifests then (cur, Failed("Konnte Adventure nicht laden (" + url + ")"))
    else
      var c := FromManifest(desired, manifests[url]);
      (Some(c), Loaded(c))
  }

  /** The module-level `currentConfig`. */
  class ConfigStore {
    var current: Option<AdventureConfig>

    constructor ()
      ensures current == None
    {
      current := None;
    }

    /** `getAdventureConfig()`: the current configuration, set to the default on first use;
        once set, every call returns it unchanged. */
    method GetAdventureConfig() returns (c: AdventureConfig)
      modifies this
      ensures c == Current(old(current)) && current == Some(c)
      ensures old(current).Some? ==> current == old(current)
    {
      if current.None? {
        current := Some(DefaultConfig());
      }
      c := current.value;
    }

    /** `setActiveAdventure(adventureId)`. */
    method SetActiveAdventure(requested: Option<string>, manifests: map<string, Manifest>)
      returns (r: Loaded)
      modifies this
      ensures (current, r) == Activate(old(current), requested, manifests)
    {
      var desired;
      if Truthy(requested) {
        desired := requested.value;
      } else {
        var c := GetAdventureConfig();
        desired := c.id;
      }
      var base := BasePath(desired);
      var url := base + "/game.json";
      if url !in manifests {
        return Failed("Konnte Adventure nicht laden (" + url + ")");
      }
      var config := FromManifest(desired, manifests[url]);
      current := Some(config);
      r := Loaded(config);
    }
  }
}
