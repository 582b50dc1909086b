/**
 * The request handling of the service (`api_service.py`) without its HTTP layer: the three
 * pieces of shared state (`FUNCTION_METADATA`, `chat_history`, `execution_log`) and the engine
 * they feed, the `/execute` handler with its parameter inference, the `/monitor` view and the
 * `/register_function` handler. An HTTP error response is modelled as a rejected outcome that
 * leaves the state as it was; `datetime.now().isoformat()` is a parameter.
 */
module ApiService {
  import opened Wrappers
  import opened Text
  import opened Metadata
  import opened RagEngine
  import opened CodeGenerator

  /** One `execution_log` record. */
  datatype LogEntry = LogEntry(timestamp: string, prompt: string, functionName: string, params: Option<seq<string>>)

  /** The `/execute` response body, or the error raised when no action was resolved. */
  datatype Outcome = Executed(functionName: string, code: string) | Rejected

  /** The condition under which one parameter rule of the handler fires. */
  datatype Trigger =
    | PromptHas(word: string)
    | NameHasAndPromptOrLastHas(nameWord: string, word: string)

  datatype Rule = Rule(trigger: Trigger, value: seq<string>)

  /** The handler's inference rules, in the order it tries them. */
  const ParamRules: seq<Rule> := [
    Rule(PromptHas("file"), ["example.txt"]),
    Rule(PromptHas("command"), ["dir"]),
    Rule(NameHasAndPromptOrLastHas("say_hello", "world"), ["world"])
  ]

  /** Whether a rule fires for an action name, a lower-cased prompt and the history before it. */
  predicate Fires(t: Trigger, name: string, promptLower: string, history: seq<ChatEntry>)
  {
    match t
    case PromptHas(w) => Contains(promptLower, w)
    case NameHasAndPromptOrLastHas(n, w) =>
      Contains(name, n) &&
      (Contains(promptLower, w) || (history != [] && Contains(Lower(history[|history| - 1].prompt), w)))
  }

  /** The value of the first rule that fires, if any. */
  function FirstRule(rules: seq<Rule>, name: string, promptLower: string, history: seq<ChatEntry>): (r: Option<seq<string>>)
    ensures r.None? <==> forall k :: 0 <= k < |rules| ==> !Fires(rules[k].trigger, name, promptLower, history)
    ensures r.Some? ==> exists k :: 0 <= k < |rules| && r.value == rules[k].value &&
                                    Fires(rules[k].trigger, name, promptLower, history) &&
                                    forall j :: 0 <= j < k ==> !Fires(rules[j].trigger, name, promptLower, history)
  {
    if rules == [] then None
    else if Fires(rules[0].trigger, name, promptLower, history) then Some(rules[0].value)
    else
      var r := FirstRule(rules[1..], name, promptLower, history);
      assert forall j :: 1 <= j < |rules| ==> rules[j] == rules[1..][j - 1];
      r
  }

  /** The parameters the handler infers for the resolved action `name` with record `d`: only
      records with a `"params"` key get any, "file" wins over "command", and the `say_hello`
      rule looks at the prompt and otherwise at the last prompt already in the history. */
  function InferParams(d: Descriptor, name: string, prompt: string, history: seq<ChatEntry>): (params: Option<seq<string>>)
    ensures d.params.None? ==> params.None?
    ensures params.Some? ==> params.value == ["example.txt"] || params.value == ["dir"] || params.value == ["world"]
    ensures d.params.Some? && Contains(Lower(prompt), "file") ==> params == Some(["example.txt"])
    ensures d.params.Some? && !Contains(Lower(prompt), "file") && Contains(Lower(prompt), "command") ==>
              params == Some(["dir"])
    ensures params == Some(["world"]) ==> Contains(name, "say_hello")
  {
    if d.params.None? then None
    else
      var promptLower := Lower(prompt);
      if Contains(promptLower, "file") then Some(["example.txt"])
      else if Contains(promptLower, "command") then Some(["dir"])
      else if Contains(name, "say_hello") then
        if Contains(promptLower, "world") then Some(["world"])
        else if history != [] && Contains(Lower(history[|history| - 1].prompt), "world") then Some(["world"])
        else None
      else None
  }

  /** The if/elif chain is the first-firing rule of `ParamRules`, for records with `"params"`. */
  lemma InferParamsFollowsRules(d: Descriptor, name: string, prompt: string, history: seq<ChatEntry>)
    ensures InferParams(d, name, prompt, history) ==
            if d.params.None? then None else FirstRule(ParamRules, name, Lower(prompt), history)
  {
    var promptLower := Lower(prompt);
    var rest := ParamRules[1..];
    var last := rest[1..];
    assert rest == [Rule(PromptHas("command"), ["dir"]), Rule(NameHasAndPromptOrLastHas("say_hello", "world"), ["world"])];
    assert last == [Rule(NameHasAndPromptOrLastHas("say_hello", "world"), ["world"])];
    assert last[1..] == [];
    assert FirstRule(last, name, promptLower, history) ==
           if Fires(last[0].trigger, name, promptLower, history) then Some(["world"]) else None;
    assert FirstRule(rest, name, promptLower, history) ==
           if Contains(promptLower, "command") then Some(["dir"]) else FirstRule(last, name, promptLower, history);
    assert FirstRule(ParamRules, name, promptLower, history) ==
           if Contains(promptLower, "file") then Some(["example.txt"]) else FirstRule(rest, name, promptLower, history);
  }

  /** Only the last history entry can supply "world"; earlier ones never matter. */
  lemma InferParamsUsesLastEntry(d: Descriptor, name: string, prompt: string, h1: seq<ChatEntry>, h2: seq<ChatEntry>)
    requires h1 != [] && h2 != [] && h1[|h1| - 1] == h2[|h2| - 1]
    ensures InferParams(d, name, prompt, h1) == InferParams(d, name, prompt, h2)
  {
  }

  /** The `say_hello` rule carries "world" over from the previous prompt. */
  lemma WorldCarriesOver(d: Descriptor, name: string, prompt: string, history: seq<ChatEntry>)
    requires d.params.Some? && Contains(name, "say_hello")
    requires !Contains(Lower(prompt), "file") && !Contains(Lower(prompt), "command")
    requires history != [] && Contains(Lower(history[|history| - 1].prompt), "world")
    ensures InferParams(d, name, prompt, history) == Some(["world"])
  {
  }

  /** The module-level state of the service. */
  class Service {
    var functionMetadata: Registry
    var chatHistory: seq<ChatEntry>
    var executionLog: seq<LogEntry>
    const ragEngine: RAGEngine

    /** The registry is well formed and the engine's names and index agree with it. */
    ghost predicate Valid()
      reads this, ragEngine
    {
      functionMetadata.Valid() && ragEngine.Synced(functionMetadata)
    }

    /** Module import: the initial registry, empty history and log, an engine built over it. */
    constructor (search: Searcher)
      ensures Valid()
      ensures functionMetadata == Initial && chatHistory == [] && executionLog == []
      ensures ragEngine.search == search
    {
      InitialValid();
      functionMetadata := Initial;
      chatHistory := [];
      executionLog := [];
      ragEngine := new RAGEngine(Initial, search);
    }

    /** `execute_function`: resolve the prompt, infer parameters, generate the script, and record
        the request; a missing or empty resolution is rejected and records nothing. */
    method Execute(prompt: string, timestamp: string) returns (outcome: Outcome)
      requires Valid()
      modifies this
      ensures Valid()
      ensures functionMetadata == old(functionMetadata)
      ensures var resolved := ragEngine.Resolve(old(chatHistory), prompt);
              if resolved.None? || resolved.value == "" then
                outcome == Rejected && chatHistory == old(chatHistory) && executionLog == old(executionLog)
              else
                var name := resolved.value;
                var params := InferParams(functionMetadata.entries[name], name, prompt, old(chatHistory));
                outcome == Executed(name, GenerateCode(name, params)) &&
                chatHistory == old(chatHistory) + [ChatEntry(prompt)] &&
                executionLog == old(executionLog) + [LogEntry(timestamp, prompt, name, params)]
    {
      var functionName := ragEngine.MaintainContext(chatHistory, prompt);
      if functionName.None? || functionName.value == "" {
        return Rejected;
      }
      var name := functionName.value;
      var params := InferParams(functionMetadata.entries[name], name, prompt, chatHistory);
      var generatedCode := GenerateCode(name, params);
      chatHistory := chatHistory + [ChatEntry(prompt)];
      executionLog := executionLog + [LogEntry(timestamp, prompt, name, params)];
      return Executed(name, generatedCode);
    }

    /** `get_execution_log`: the ten most recent log entries (all of them when there are
        fewer), oldest first. */
    function Monitor(): (recent: seq<LogEntry>)
      reads this
      ensures |recent| <= 10 && |recent| <= |executionLog|
      ensures |executionLog| >= 10 ==> |recent| == 10
      ensures |executionLog| < 10 ==> recent == executionLog
      ensures forall i :: 0 <= i < |recent| ==> recent[i] == executionLog[|executionLog| - |recent| + i]
    {
      if |executionLog| <= 10 then executionLog else executionLog[|executionLog| - 10..]
    }

    /** `register_function`: a new name gets a record (with `"params"` only for a non-empty list),
        goes last in the key order, and the engine is re-synced and rebuilt; a name already
        present is rejected and nothing changes. */
    method Register(name: string, description: string, params: Option<seq<string>>) returns (ok: bool)
      requires Valid()
      modifies this, ragEngine
      ensures Valid()
      ensures ok <==> name !in old(functionMetadata.entries)
      ensures !ok ==> functionMetadata == old(functionMetadata) &&
                      ragEngine.functionNames == old(ragEngine.functionNames) && ragEngine.index == old(ragEngine.index)
      ensures ok ==> functionMetadata.names == old(functionMetadata.names) + [name]
      ensures ok ==> functionMetadata.entries ==
                       old(functionMetadata.entries)[name := Descriptor(description,
                                                        if params.Some? && params.value != [] then params else None)]
      ensures chatHistory == old(chatHistory) && executionLog == old(executionLog)
    {
      if name in functionMetadata.entries {
        return false;
      }
      functionMetadata := functionMetadata.Insert(name, Descriptor(description, None));
      if params.Some? && params.value != [] {
        functionMetadata := functionMetadata.SetParams(name, params.value);
      }
      ragEngine.functionNames := functionMetadata.names;
      ragEngine.BuildIndex(functionMetadata);
      return true;
    }
  }

  /** After registration, a history-backed query in which the new name occurs, and no older one,
      resolves to the new name. */
  lemma RegisteredNameReachable(e: RAGEngine, names: seq<string>, f: string, chatHistory: seq<ChatEntry>, query: string)
    requires e.functionNames == names + [f] && chatHistory != []
    requires forall j :: 0 <= j < |names| ==> !Matches(names[j], Lower(query))
    requires Matches(f, Lower(query))
    ensures e.Resolve(chatHistory, query) == Some(f)
  {
    FirstKeywordMatchWins(e, chatHistory, query, |names|);
  }

  /** Before registration, no query resolves to a name the engine does not hold. */
  lemma UnregisteredUnreachable(e: RAGEngine, f: string, chatHistory: seq<ChatEntry>, query: string)
    requires f !in e.functionNames
    ensures e.Resolve(chatHistory, query) != Some(f)
  {
  }
}
