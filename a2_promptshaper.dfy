/*
 * A2, the prompt shaper: it hands the task, context and purpose of a
 * preprocessed SuperPrompt to the A2 agent, asks the LLM to choose the
 * system, audience, tone, depth and confidence, writes the chosen values
 * back into the same SuperPrompt, and recomposes its prompt text.
 * The LLM client and `json.loads` are function parameters.
 */
module A2Shaper {
  import opened Common
  import opened PyJson
  import opened AgentPromptEngine
  import opened AgentFactoryCache
  import opened SuperPromptState
  import opened Preprocessing
  import ConfigLoader
  import ComposeTexts

  /** The agent `run` asks the factory for by default. */
  const DefaultAgentId: string := "a2_promptshaper"
  const DefaultVersion: string := "001"

  /** The fields A2 fills, all of them active. */
  const A2Fields: seq<string> := ["system", "audience", "tone", "depth", "confidence"]

  /** The LLM client's `chat(messages, model_name, temperature, max_output_tokens, response_format)`. */
  type Chat = (seq<Message>, Json, Json, int, Json) -> Json

  // ---------------------------------------------------------------------
  // Step 1: the chooser input.

  /** `(sp.body.get(key) or "").strip()`. */
  function InputText(body: map<string, Option<string>>, key: string): (r: string)
    ensures PartValue(body, key).None? ==> r == ""
    ensures Strip(r) == r
  {
    match PartValue(body, key)
    case None => ""
    case Some(s) => StripIdempotent(s); Strip(s)
  }

  /** The input payload: task, context and purpose, in that order. */
  function Inputs(body: map<string, Option<string>>): (r: seq<(string, Json)>)
    ensures |r| == 3 && r[0].0 == "task" && r[1].0 == "context" && r[2].0 == "purpose"
    ensures forall i :: 0 <= i < 3 ==> r[i].1 == JStr(InputText(body, r[i].0))
  {
    [("task", JStr(InputText(body, "task"))), ("context", JStr(InputText(body, "context"))),
     ("purpose", JStr(InputText(body, "purpose")))]
  }

  // ---------------------------------------------------------------------
  // Steps 2 to 5: from the agent to the result dict.

  /** `str(exc)` for the errors a decoder raises. */
  function ErrorText(e: Error): string
  {
    match e
    case ValueError(m) => m
    case TypeError(m) => m
    case AttributeError(m) => m
    case RuntimeError(m) => m
    case AgentPromptValidationError(m) => m
    case KeyError(k) => k
    case FileNotFoundError(p) => p
    case NotADirectoryError(p) => p
    case NameError(n) => n
    case DuplicateIdError(i) => i
    case IndexError(m) => m
  }

  /**
   * Step 5: a dict is used as it is, a str is decoded (a decoding failure
   * becomes RuntimeError), and anything else is a RuntimeError naming its type.
   */
  function ResultDict(raw: Json, loads: string -> Result<Json>): (r: Result<Json>)
    ensures raw.JObj? ==> r == Ok(raw)
    ensures r.Err? ==> r.error.RuntimeError?
    ensures !raw.JObj? && !raw.JStr? ==> r.Err?
  {
    if raw.JObj? then Ok(raw)
    else if raw.JStr? then
      match loads(raw.s)
      case Ok(v) => Ok(v)
      case Err(e) => Err(RuntimeError("A2PromptShaper: LLM did not return valid JSON: " + ErrorText(e)))
    else Err(RuntimeError("A2PromptShaper: Unexpected result type from LLMClient: <class '" + TypeName(raw) + "'>"))
  }

  /**
   * What A2 has in hand before it touches the SuperPrompt: the result dict
   * the LLM chose, or the error raised on the way there, in source order
   * (the factory, then `compose` and the rest of `Choose`).
   */
  function Chosen(body: map<string, Option<string>>, agent: Result<AgentPrompt>, chat: Chat, loads: string -> Result<Json>)
    : (r: Result<Json>)
    requires agent.Ok? ==> ConfigLoader.WellFormed(agent.value.fields)
    ensures r.Ok? ==> r.value.JObj?
    ensures agent.Err? ==> r == Err(agent.error)
  {
    if agent.Err? then Err(agent.error) else Choose(body, agent.value, chat, loads)
  }

  /**
   * What A2 has in hand with `compose` as written: the factory's error, or
   * the error `compose` raises; the LLM is never called and no result
   * reaches the merge.
   */
  function ChosenAsWritten(body: map<string, Option<string>>, agent: Result<AgentPrompt>): (r: Result<Json>)
    ensures r.Err?
    ensures agent.Err? ==> r == Err(agent.error)
    ensures agent.Ok? && agent.value.mode == JStr("chooser")
              && ComposeTexts.SystemHead(agent.value.systemText, agent.value.purposeText).Ok?
            ==> r.error.TypeError?
  {
    if agent.Err? then Err(agent.error)
    else
      var composed := ComposeAsWritten(agent.value, Inputs(body), Some(A2Fields));
      Err(composed.error)
  }

  /**
   * Steps 3 to 5 with a built agent: a `compose` error, a missing model
   * name, a result of the wrong type, and a decoded value that is no dict
   * (failing its first `.get`) are the errors; otherwise the dict.
   */
  function Choose(body: map<string, Option<string>>, a: AgentPrompt, chat: Chat, loads: string -> Result<Json>)
    : (r: Result<Json>)
    requires ConfigLoader.WellFormed(a.fields)
    ensures r.Ok? ==> r.value.JObj? && Truthy(a.modelName)
  {
    var composed := Compose(a, Inputs(body), Some(A2Fields));
    if composed.Err? then Err(composed.error)
    else if !Truthy(a.modelName) then
      Err(RuntimeError("A2PromptShaper: AgentPrompt has no model_name configured (JSON missing?)"))
    else
      var raw := chat(composed.value.messages, a.modelName, a.temperature, a.maxOutputTokens, composed.value.responseFormat);
      AsDict(ResultDict(raw, loads))
  }

  /** The first `.get` of step 6 fails on a decoded value that is no dict. */
  function AsDict(v: Result<Json>): (r: Result<Json>)
    ensures r.Ok? <==> v.Ok? && v.value.JObj?
    ensures r.Ok? ==> r == v
    ensures v.Ok? && !v.value.JObj? ==> r == Err(AttributeError("'" + TypeName(v.value) + "' object has no attribute 'get'"))
  {
    if v.Err? then v
    else if !v.value.JObj? then Err(AttributeError("'" + TypeName(v.value) + "' object has no attribute 'get'"))
    else v
  }

  /** What `get_agent` returns for a key, given the cache it finds. */
  function Fetched(cache: map<(string, string), AgentPrompt>, files: map<string, Result<Json>>, agentsRoot: string,
                   agentId: string, version: string): Result<AgentPrompt>
  {
    if (agentId, version) in cache then Ok(cache[(agentId, version)]) else Build(files, agentsRoot, agentId, version)
  }

  // ---------------------------------------------------------------------
  // Step 6: the merge.

  /** The items of a list value that are not blank once `str()`-ed and stripped, stripped. */
  function KeptItems(items: seq<Json>): (r: seq<string>)
    ensures forall i :: 0 <= i < |r| ==> r[i] != [] && Strip(r[i]) == r[i]
    ensures |r| <= |items|
  {
    if items == [] then []
    else
      var t := Strip(Str(items[0]));
      StripIdempotent(Str(items[0]));
      if t == [] then KeptItems(items[1..]) else [t] + KeptItems(items[1..])
  }

  /** No item is kept exactly when every item is blank once `str()`-ed. */
  lemma {:induction false} KeptItemsEmptyIff(items: seq<Json>)
    ensures KeptItems(items) == [] <==> forall i :: 0 <= i < |items| ==> AllSpace(Str(items[i]))
  {
    if items != [] {
      KeptItemsEmptyIff(items[1..]);
      StripEmptyIff(Str(items[0]));
      assert forall i :: 1 <= i < |items| ==> items[i] == items[1..][i - 1];
    }
  }

  /** The text a chosen value is written as: a list joined by ", ", anything else `str()`-ed; both stripped. */
  function ValueText(v: Json): string
  {
    if v.JList? then Join(KeptItems(v.items), ", ") else Strip(Str(v))
  }

  /** The loop of step 6 over `keys`: a None or missing value, or a blank text, leaves the key as it was. */
  function MergeKeys(body: map<string, Option<string>>, entries: seq<(string, Json)>, keys: seq<string>)
    : map<string, Option<string>>
    decreases |keys|
  {
    if keys == [] then body
    else
      var v := Lookup(entries, keys[0]);
      var next := if v.None? || v.value.JNull? || ValueText(v.value) == [] then body
                  else body[keys[0] := Some(ValueText(v.value))];
      MergeKeys(next, entries, keys[1..])
  }

  /** The text step 6 writes for `key`, if any. */
  function Written(entries: seq<(string, Json)>, key: string): Option<string>
  {
    var v := Lookup(entries, key);
    if v.None? || v.value.JNull? || ValueText(v.value) == [] then None else Some(ValueText(v.value))
  }

  /**
   * Each listed key gets the text chosen for it when there is one and
   * keeps its value otherwise; no other key changes.
   */
  lemma {:induction false} MergeAt(body: map<string, Option<string>>, entries: seq<(string, Json)>, keys: seq<string>, k: string)
    ensures k in MergeKeys(body, entries, keys) <==> k in body || (k in keys && Written(entries, k).Some?)
    ensures k in MergeKeys(body, entries, keys) ==>
      MergeKeys(body, entries, keys)[k] == if k in keys && Written(entries, k).Some? then Written(entries, k) else body[k]
    decreases |keys|
  {
    if keys != [] {
      var w := Written(entries, keys[0]);
      var next := if w.None? then body else body[keys[0] := w];
      assert MergeKeys(body, entries, keys) == MergeKeys(next, entries, keys[1..]);
      MergeAt(next, entries, keys[1..], k);
      assert k in keys <==> k == keys[0] || k in keys[1..];
    }
  }

  /** Merging the same result a second time changes nothing. */
  lemma MergeTwice(body: map<string, Option<string>>, entries: seq<(string, Json)>, keys: seq<string>)
    ensures MergeKeys(MergeKeys(body, entries, keys), entries, keys) == MergeKeys(body, entries, keys)
  {
    var once := MergeKeys(body, entries, keys);
    var twice := MergeKeys(once, entries, keys);
    forall k | k in twice || k in once
      ensures k in twice && k in once && twice[k] == once[k]
    {
      MergeAt(body, entries, keys, k);
      MergeAt(once, entries, keys, k);
    }
  }

  /** A list value is written as its kept items joined by ", ", so neither end has whitespace. */
  lemma ValueTextStripped(v: Json)
    ensures Strip(ValueText(v)) == ValueText(v)
  {
    if v.JList? {
      JoinStripped(KeptItems(v.items));
    } else {
      StripIdempotent(Str(v));
    }
  }

  /** Joining non-blank stripped items with ", " gives a stripped text. */
  lemma JoinStripped(items: seq<string>)
    requires forall i :: 0 <= i < |items| ==> items[i] != [] && Strip(items[i]) == items[i]
    ensures Strip(Join(items, ", ")) == Join(items, ", ")
  {
    if items != [] {
      var j := Join(items, ", ");
      JoinEnds(items);
      StrippedEnds(items[0]);
      StrippedEnds(items[|items| - 1]);
      StripUnchanged(j);
    }
  }

  /** A joined text starts with its first item's first character and ends with its last item's last one. */
  lemma {:induction false} JoinEnds(items: seq<string>)
    requires items != [] && forall i :: 0 <= i < |items| ==> items[i] != []
    ensures var j := Join(items, ", "); j != [] && j[0] == items[0][0] && j[|j| - 1] == items[|items| - 1][|items[|items| - 1]| - 1]
    decreases |items|
  {
    if |items| > 1 {
      var rest := items[1..];
      JoinEnds(rest);
      assert items[|items| - 1] == rest[|rest| - 1];
    }
  }

  /** A non-empty stripped text has no whitespace at either end. */
  lemma StrippedEnds(s: string)
    requires s != [] && Strip(s) == s
    ensures !IsSpace(s[0]) && !IsSpace(s[|s| - 1])
  {
    var i, j := StripIsSlice(s);
    LeadEndSpaces(s, 0);
    TrailStartSpaces(s, i, |s|);
  }

  /** Step 6 as `run` performs it, key by key. */
  method MergeResult(sp: SuperPrompt, entries: seq<(string, Json)>, keys: seq<string>)
    modifies sp
    ensures sp.body == MergeKeys(old(sp.body), entries, keys)
    ensures sp.Untouched() == old(sp.Untouched()) && sp.promptReady == old(sp.promptReady)
    ensures sp.historyOfStages == old(sp.historyOfStages) && sp.stage == old(sp.stage)
  {
    ghost var body0 := sp.body;
    var i := 0;
    while i < |keys|
      invariant 0 <= i <= |keys|
      invariant MergeKeys(sp.body, entries, keys[i..]) == MergeKeys(body0, entries, keys)
      invariant sp.Untouched() == old(sp.Untouched()) && sp.promptReady == old(sp.promptReady)
      invariant sp.historyOfStages == old(sp.historyOfStages) && sp.stage == old(sp.stage)
    {
      var key := keys[i];
      assert keys[i..][1..] == keys[i + 1..];
      var value := Lookup(entries, key);
      if value.Some? && !value.value.JNull? {
        var text := ValueText(value.value);
        if text != [] {
          sp.body := sp.body[key := Some(text)];
        }
      }
      i := i + 1;
    }
    assert keys[i..] == [];
  }

  // ---------------------------------------------------------------------
  // `run`.

  /**
   * `A2PromptShaper.run`: on any error before the merge the SuperPrompt is
   * left exactly as it was; otherwise the five chosen values are merged
   * into its body, `prompt_ready` is recomposed, and the stage "a2" is
   * recorded. The factory reads and caches the agent as `get_agent` does.
   */
  method Run(sp: SuperPrompt, factory: AgentFactory, agentId: string, version: string,
             files: map<string, Result<Json>>, chat: Chat, loads: string -> Result<Json>)
    returns (err: Option<Error>)
    requires factory.Valid(files)
    modifies sp, factory
    ensures factory.Valid(files)
    ensures (agentId, version) in old(factory.cache) ==>
      factory.cache == old(factory.cache) && factory.loaded == old(factory.loaded)
    ensures (agentId, version) !in old(factory.cache) ==>
      var built := Build(files, factory.agentsRoot, agentId, version);
      && factory.loaded == old(factory.loaded) + [(agentId, version)]
      && factory.cache == (if built.Ok? then old(factory.cache)[(agentId, version) := built.value] else old(factory.cache))
    ensures var agent := Fetched(old(factory.cache), files, factory.agentsRoot, agentId, version);
      && (agent.Ok? ==> ConfigLoader.WellFormed(agent.value.fields))
      && var chosen := Chosen(old(sp.body), agent, chat, loads);
      && (chosen.Err? ==> err == Some(chosen.error) && sp.body == old(sp.body) && sp.promptReady == old(sp.promptReady)
                          && sp.historyOfStages == old(sp.historyOfStages) && sp.stage == old(sp.stage))
      && (chosen.Ok? ==> err == None && sp.body == MergeKeys(old(sp.body), chosen.value.entries, A2Fields)
                         && sp.promptReady == ComposePromptReady(sp.body)
                         && sp.historyOfStages == old(sp.historyOfStages) + ["a2"] && sp.stage == "a2")
    ensures sp.Untouched() == old(sp.Untouched())
  {
    ghost var cache0 := factory.cache;
    var agent := factory.GetAgent(agentId, version, files);
    AgentWellFormed(factory, agentId, version, files, agent);
    assert agent == Fetched(cache0, files, factory.agentsRoot, agentId, version);
    var chosen := Chosen(sp.body, agent, chat, loads);
    if chosen.Err? {
      return Some(chosen.error);
    }
    MergeResult(sp, chosen.value.entries, A2Fields);
    FinishStage(sp, "a2");
    return None;
  }

  /** An agent the factory hands out was built from a config, so its fields are well formed. */
  lemma AgentWellFormed(factory: AgentFactory, agentId: string, version: string, files: map<string, Result<Json>>,
                        agent: Result<AgentPrompt>)
    requires factory.Valid(files)
    requires agent.Ok? ==> (agentId, version) in factory.cache && agent.value == factory.cache[(agentId, version)]
    ensures agent.Ok? ==> ConfigLoader.WellFormed(agent.value.fields)
  {
  }
}
