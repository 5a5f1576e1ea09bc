/*
 * `AgentFactory`: builds an agent's `AgentPrompt` from its JSON config file
 * `<agents_root>/<agent_id>/<version>.json` and keeps it in a cache keyed by
 * `(agent_id, version)`. The file system is a parameter: the map from a path
 * to what `json.load` made of that file (absent when the path is not a file).
 */
module AgentFactoryCache {
  import opened Common
  import opened PyJson
  import opened AgentPromptEngine

  /**
   * `path / part` for a one-part string: `pathlib` drops an empty part and
   * the part ".", and appends any other after a separator.
   */
  function PathJoin(path: string, part: string): (r: string)
    ensures part == "" || part == "." ==> r == path
    ensures part != "" && part != "." ==> |r| == |path| + 1 + |part| && r[..|path|] == path && r[|path|] == '/'
  {
    if part == "" || part == "." then path else path + "/" + part
  }

  /** `agents_root / agent_id / f"{version}.json"`. */
  function ConfigPath(agentsRoot: string, agentId: string, version: string): string
  {
    PathJoin(PathJoin(agentsRoot, agentId), version + ".json")
  }

  /** A string with no separator inside. */
  predicate Component(s: string)
  {
    '/' !in s
  }

  /** A part `pathlib` keeps as one path component: no separator, and neither empty nor ".". */
  predicate PathComponent(s: string)
  {
    Component(s) && s != "" && s != "."
  }

  /** The ids "" and "." are two cache keys that read the same file. */
  lemma EmptyAndDotShareConfig(root: string, v: string)
    ensures ConfigPath(root, "", v) == ConfigPath(root, ".", v) == root + "/" + v + ".json"
  {
  }

  /**
   * Different keys read different files: the id and the version can be read
   * back from the path, as long as the id is a kept path component and the
   * version holds no separator.
   */
  lemma ConfigPathInjective(root: string, a: string, v: string, b: string, w: string)
    requires PathComponent(a) && PathComponent(b)
    requires ConfigPath(root, a, v) == ConfigPath(root, b, w)
    ensures a == b && v == w
  {
    var p := ConfigPath(root, a, v);
    assert v + ".json" != "" && v + ".json" != "." && w + ".json" != "" && w + ".json" != ".";
    var ra := a + "/" + (v + ".json");
    var rb := b + "/" + (w + ".json");
    assert p == root + "/" + ra && p == root + "/" + rb;
    assert ra == p[|root| + 1..] == rb;
    SplitAtFirstSlash(a, v + ".json", b, w + ".json");
    assert v + ".json" == w + ".json";
    assert v == (v + ".json")[..|v|] && w == (w + ".json")[..|w|];
  }

  /** `x + "/" + y` is split at its first separator when `x` holds none. */
  lemma SplitAtFirstSlash(x: string, y: string, x': string, y': string)
    requires Component(x) && Component(x')
    requires x + "/" + y == x' + "/" + y'
    ensures x == x' && y == y'
  {
    var s := x + "/" + y;
    FirstSlash(x, y);
    FirstSlash(x', y');
    assert |x| == |x'|;
    assert x == s[..|x|] == x';
    assert y == s[|x| + 1..] == y';
  }

  /** In `x + "/" + y`, the first separator is the one after `x`. */
  lemma FirstSlash(x: string, y: string)
    requires Component(x)
    ensures var s := x + "/" + y; s[|x|] == '/' && forall i :: 0 <= i < |x| ==> s[i] != '/'
  {
    var s := x + "/" + y;
    forall i | 0 <= i < |x|
      ensures s[i] != '/'
    {
      assert s[i] == x[i];
    }
  }

  /**
   * `load_config`: FileNotFoundError when the path is not a file, otherwise
   * what loading its JSON gave (its error re-raised as is).
   */
  function LoadConfig(files: map<string, Result<Json>>, agentsRoot: string, agentId: string, version: string): Result<Json>
  {
    var path := ConfigPath(agentsRoot, agentId, version);
    if path !in files then Err(FileNotFoundError(path)) else files[path]
  }

  /** What building the agent for a key gives, reading the files. */
  function Build(files: map<string, Result<Json>>, agentsRoot: string, agentId: string, version: string): Result<AgentPrompt>
  {
    var config := LoadConfig(files, agentsRoot, agentId, version);
    if config.Err? then Err(config.error) else FromConfig(config.value)
  }

  class AgentFactory {
    const agentsRoot: string
    var cache: map<(string, string), AgentPrompt>
    /** The keys whose config was read, in order. */
    ghost var loaded: seq<(string, string)>

    /** Every cached agent was built from its own config, which was read. */
    ghost predicate Valid(files: map<string, Result<Json>>)
      reads this
    {
      forall key :: key in cache ==> key in loaded && Build(files, agentsRoot, key.0, key.1) == Ok(cache[key])
    }

    constructor(agentsRoot: string)
      ensures this.agentsRoot == agentsRoot && cache == map[] && loaded == []
    {
      this.agentsRoot := agentsRoot;
      cache := map[];
      loaded := [];
    }

    /**
     * `get_agent`: a cached key returns its agent without reading anything;
     * otherwise the config is read once, and a built agent is cached. A
     * missing or failing config leaves the cache as it was.
     */
    method GetAgent(agentId: string, version: string, files: map<string, Result<Json>>) returns (r: Result<AgentPrompt>)
      modifies this
      ensures old(Valid(files)) ==> Valid(files)
      ensures (agentId, version) in old(cache) ==>
        r == Ok(old(cache)[(agentId, version)]) && cache == old(cache) && loaded == old(loaded)
      ensures (agentId, version) !in old(cache) ==>
        r == Build(files, agentsRoot, agentId, version) && loaded == old(loaded) + [(agentId, version)]
        && cache == (if r.Ok? then old(cache)[(agentId, version) := r.value] else old(cache))
    {
      var key := (agentId, version);
      if key in cache {
        return Ok(cache[key]);
      }
      loaded := loaded + [key];
      var config := LoadConfig(files, agentsRoot, agentId, version);
      if config.Err? {
        return Err(config.error);
      }
      var agent := FromConfig(config.value);
      if agent.Err? {
        return Err(agent.error);
      }
      cache := cache[key := agent.value];
      r := agent;
    }

    /** `clear_cache`: the cache is emptied, nothing else changes. */
    method ClearCache()
      modifies this
      ensures cache == map[] && loaded == old(loaded)
    {
      cache := map[];
    }
  }

  /**
   * Asking twice for the same key gives the same agent, and the second call
   * reads no file.
   */
  method GetAgentTwice(f: AgentFactory, agentId: string, version: string, files: map<string, Result<Json>>)
    returns (r1: Result<AgentPrompt>, r2: Result<AgentPrompt>)
    modifies f
    ensures r1.Ok? ==> r2 == r1 && f.loaded == old(f.loaded) + (if (agentId, version) in old(f.cache) then [] else [(agentId, version)])
  {
    r1 := f.GetAgent(agentId, version, files);
    r2 := f.GetAgent(agentId, version, files);
  }

  // ---------------------------------------------------------------------
  // The factory as written, against the logger it imports.

  /** The class methods `SimpleLogger` defines: `log` and `error`, no `info`. */
  const LoggerMethods: set<string> := {"log", "error"}

  /** Calling `SimpleLogger.<name>` with a logger that has `methods`. */
  function LoggerCall(methods: set<string>, name: string): (r: Option<Error>)
    ensures r.None? <==> name in methods
  {
    if name in methods then None
    else Some(AttributeError("type object 'SimpleLogger' has no attribute '" + name + "'"))
  }

  /** The factory's state on values: its root and its cache. */
  datatype FactoryState = FactoryState(agentsRoot: string, cache: map<(string, string), AgentPrompt>)

  /** `AgentFactory(agents_root)` as written: it logs through `SimpleLogger.info` last. */
  function NewFactoryAsWritten(methods: set<string>, agentsRoot: string): (r: Result<FactoryState>)
    ensures r.Ok? <==> "info" in methods
    ensures r.Ok? ==> r.value == FactoryState(agentsRoot, map[])
  {
    var e := LoggerCall(methods, "info");
    if e.Some? then Err(e.value) else Ok(FactoryState(agentsRoot, map[]))
  }

  /**
   * `get_agent` as written: a miss reads and builds the agent and caches it,
   * and only then logs through `SimpleLogger.info`, whose failure is the
   * call's result although the cache has changed.
   */
  function GetAgentAsWritten(methods: set<string>, st: FactoryState, files: map<string, Result<Json>>,
                             agentId: string, version: string): (r: (Result<AgentPrompt>, FactoryState))
    ensures (agentId, version) in st.cache ==> r == (Ok(st.cache[(agentId, version)]), st)
    ensures (agentId, version) !in st.cache ==>
      var b := Build(files, st.agentsRoot, agentId, version);
      && (b.Err? ==> r == (b, st))
      && (b.Ok? ==> r.1 == st.(cache := st.cache[(agentId, version) := b.value])
                    && (r.0.Ok? <==> "info" in methods) && (r.0.Ok? ==> r.0 == b))
  {
    var key := (agentId, version);
    if key in st.cache then (Ok(st.cache[key]), st)
    else
      var b := Build(files, st.agentsRoot, agentId, version);
      if b.Err? then (b, st)
      else
        var st' := st.(cache := st.cache[key := b.value]);
        var e := LoggerCall(methods, "info");
        if e.Some? then (Err(e.value), st') else (b, st')
  }

  /** `clear_cache` as written: the cache is emptied, then `SimpleLogger.info` is called. */
  function ClearCacheAsWritten(methods: set<string>, st: FactoryState): (r: (Option<Error>, FactoryState))
    ensures r.1 == st.(cache := map[])
    ensures r.0.None? <==> "info" in methods
  {
    (LoggerCall(methods, "info"), st.(cache := map[]))
  }

  /**
   * With the logger as shipped, the factory cannot be built, and a factory
   * that could be built would fail the first fetch of a good config while
   * caching its agent, then hand that agent out on the next fetch.
   */
  lemma ShippedLoggerBreaksFactory(root: string, st: FactoryState, files: map<string, Result<Json>>,
                                   agentId: string, version: string)
    requires (agentId, version) !in st.cache && Build(files, st.agentsRoot, agentId, version).Ok?
    ensures NewFactoryAsWritten(LoggerMethods, root).Err?
    ensures var first := GetAgentAsWritten(LoggerMethods, st, files, agentId, version);
      && first.0.Err? && first.0.error.AttributeError?
      && GetAgentAsWritten(LoggerMethods, first.1, files, agentId, version).0 == Build(files, st.agentsRoot, agentId, version)
    ensures ClearCacheAsWritten(LoggerMethods, st).0.Some?
  {
    assert "info" !in LoggerMethods;
    var key := (agentId, version);
    var b := Build(files, st.agentsRoot, agentId, version);
    var first := GetAgentAsWritten(LoggerMethods, st, files, agentId, version);
    assert first.1 == st.(cache := st.cache[key := b.value]);
    assert first.0 == Err(LoggerCall(LoggerMethods, "info").value);
    assert key in first.1.cache && first.1.cache[key] == b.value;
  }
}
