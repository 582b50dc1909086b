# Prompt-to-script automation service, modelled in Dafny

The service takes a natural-language prompt, for example "Open calculator", and resolves it to one
registered automation action. It then generates a small Python script that imports and calls
that action, and records the request. This project models three parts of it:

- **Retrieval engine** (`RagEngine`, after `rag_engine.py`).
  - A class holding the ordered action names and a vector index built from their descriptions.
  - `MaintainContext`, the layered resolution policy. With an empty history it uses
    nearest-neighbour search. Otherwise it runs a first-match-wins keyword scan. If that
    fails and the prompt contains "it" or "again", it adds the previous prompt as context and
    scans again, then searches again.
  - The sentence encoder and FAISS are replaced by a `Searcher`: any function from the stored
    descriptions and a query to the neighbour label.
- **Script generator** (`CodeGenerator`, after `code_generator.py`).
  - The fragment of Python's `str.format` that the template uses.
  - The template itself, the quoting and joining of parameters, and `GenerateCode`.
- **Request handling** (`ApiService`, after `api_service.py`, without HTTP).
  - The class `Service` holds the action registry (`FUNCTION_METADATA`), the chat history
    and the execution log.
  - `Execute` (resolve, infer parameters, generate, record), `Monitor` (the last ten log
    entries) and `Register` (add an action, re-sync, rebuild).

Supporting modules:

- `Wrappers` holds `Option` and `Result`.
- `Text` holds ASCII `lower()`, `replace("_", " ")` and the substring test `in`.
- `Metadata` holds the registry as an insertion-ordered dict, plus the initial registry.
- `Scenarios` proves the three checked-in generated scripts are exact outputs.
- `Conversations` proves the concrete prompts of the client scripts resolve as stated,
  whatever the search answers.

Notes on behaviour the proofs brought out:

- The client prompt "Show it again" after "Check CPU usage" gets no keyword match, not even
  from the context stage. The scan looks for "get cpu usage" and "get_cpu_usage", and neither
  occurs in "show it again (context: check cpu usage)". So the answer is the search result on
  the augmented query, not a context keyword match (`Conversations.ShowItAgainUsesSearch`). An
  expectation that this prompt carries `get_cpu_usage` over by keyword does not hold of the code.
- "Create a text file" matches no keyword either, because the article breaks "create text file".
  "Launch Google Chrome" and "Run a command" match none as well. All three are decided by the
  search.
- A query made of exactly one spaced action name resolves to that action by keyword whenever
  there is some history, the name is lower-case, and no earlier name occurs in it
  (`RagEngine.SpacedNameResolves`). Without these conditions the search may still return it.
- "Check CPU usage" matches no keyword either: the scan looks for "get cpu usage" and
  "get_cpu_usage", not "cpu usage". With a history, the search decides it
  (`Conversations.CheckCpuUsesSearch`).
- The marker test is a substring test, not a word test: "edit" carries the marker "it"
  (`RagEngine.MarkerInsideWord`), and extra text never removes a marker.
- A search label of -1 makes `retrieve_function` return the last name. It is below the length
  check, so Python's negative indexing applies and the `[0]` fallback is never reached.

## Model

| member | source | states |
|---|---|---|
| Text.Contains | rag_engine.py:46 | `p in s` holds exactly when some position of `s` starts an occurrence of `p` |
| Text.ContainsConcat | rag_engine.py:46 | containment survives adding text on either side |
| Text.LowerSpec | rag_engine.py:39 | `lower()` turns each ASCII capital into its small letter, changes no other character, keeps the length, and is idempotent |
| Text.SpacedSpec | rag_engine.py:44 | replacing underscores by spaces turns each underscore into a space, changes no other character, keeps the length, and leaves a name without underscores as it is |
| Text.AbsentChar | rag_engine.py:46 | a text lacking some character of `p` does not contain `p` |
| Metadata.Registry.Insert | api_service.py:84 | a new key goes last in the key order, the map gains exactly that record, and the registry stays well formed |
| Metadata.Registry.SetParams | api_service.py:85-86 | only that record's `params` is replaced; the key order is unchanged |
| Metadata.InitialValid | automation_functions.py:37-45 | the initial registry has seven distinct names, in declaration order |
| RagEngine.DescriptionsSnoc | rag_engine.py:17 | the index gets one description per name, in order; one more name adds its description at the end |
| RagEngine.MatchesSpellings | rag_engine.py:44-46 | a name matches a text holding either its raw or its spaced spelling, and always matches its own spaced spelling |
| RagEngine.NoMatch | rag_engine.py:44-46 | a name never matches a text lacking one of its letters other than the underscore |
| RagEngine.HasMarkerExtends | rag_engine.py:53 | the "it"/"again" test is on substrings: adding text on either side keeps a marker |
| RagEngine.MarkerInsideWord | rag_engine.py:53 | "edit" counts as carrying the marker "it" |
| RagEngine.CombinedQueryParts | rag_engine.py:55-57 | the combined query starts with the query, holds the previous prompt after " (context: ", and lower-casing it lower-cases both parts |
| RagEngine.FirstMatch | rag_engine.py:43-48 | the result is absent iff no name matches; otherwise it is a matching name with no matching name before it |
| RagEngine.FirstMatchAt | rag_engine.py:43-48 | the earliest matching position decides the result, whatever matches later |
| RagEngine.FirstMatchAppend | rag_engine.py:43-48 | appending a name changes the scan only when no earlier name matched |
| RagEngine.RAGEngine.constructor | rag_engine.py:7-11 | the engine starts with the registry's names and an index with one description per name, in order |
| RagEngine.RAGEngine.BuildIndex | rag_engine.py:13-22 | on an empty registry nothing changes. Otherwise the index holds the descriptions of the names before the call, and the names become the registry's keys. A synced engine stays synced with the same index, so rebuilding twice changes nothing |
| RagEngine.RAGEngine.RetrieveFunction | rag_engine.py:24-33 | the result is absent iff there are no names, and otherwise is one of the names. An in-range label gives the name at that position, a label at or past the end gives the first name, and label -1 gives the last |
| RagEngine.RAGEngine.Resolve | rag_engine.py:35-66 | the resolution is absent iff there are no names, and is otherwise one of the names |
| RagEngine.RAGEngine.ScanNames | rag_engine.py:43-48 | the keyword loop returns the first name, in list order, whose spaced or raw form occurs in the text |
| RagEngine.RAGEngine.MaintainContext | rag_engine.py:35-66 | the method computes the staged resolution; it returns nothing only when there are no names, and otherwise one of them |
| RagEngine.EmptyHistoryUsesSearch | rag_engine.py:36-37 | with an empty history the result is the search on the raw query |
| RagEngine.FirstKeywordMatchWins | rag_engine.py:39-48 | with a history, the first name matching the lower-cased query is the result |
| RagEngine.SpacedNameResolves | rag_engine.py:43-48 | a query that is a lower-case spaced action name resolves to it, when there is a history and no earlier name occurs in it |
| RagEngine.NoMarkerKeepsSearchResult | rag_engine.py:50-66 | no keyword match and neither "it" nor "again": the provisional search result is final |
| RagEngine.ContextKeywordOverrides | rag_engine.py:53-63 | with a marker, the first name matching the lower-cased "query (context: last prompt)" overrides the search |
| RagEngine.ContextFallsBackToSearch | rag_engine.py:53-64 | with a marker and no match even in context, the result is the search on the augmented query |
| RagEngine.OnlyLastPromptConsulted | rag_engine.py:54-55 | two histories with the same last entry give the same resolution |
| RagEngine.RetrieveAligned | rag_engine.py:17-33 | on a synced engine, an in-range label gives the name at that position, and that name's description is the one embedded there |
| CodeGenerator.FindClose | code_generator.py:21 | the position found is the first '}' at or after the start, or the end of the text |
| CodeGenerator.FormatPlain | code_generator.py:21 | text without braces formats to itself |
| CodeGenerator.FormatField | code_generator.py:21 | a `{key}` field with a plain keyword name renders as that keyword argument |
| CodeGenerator.FormatEscapes | code_generator.py:11 | `{{m}}` renders as `{m}` |
| CodeGenerator.FormatErrors | code_generator.py:21 | a lone '}', a '{' never closed, and a plain field name that is no keyword argument are errors |
| CodeGenerator.FormatAppend | code_generator.py:21 | formatting is compositional over concatenation |
| CodeGenerator.Quoted | code_generator.py:18 | one quoted item per parameter, in order: each is two characters longer, starts and ends with a single quote, and `Unquote` gives the parameter back, unescaped |
| CodeGenerator.JoinCommaConcat | code_generator.py:18 | joining two non-empty lists joins each and puts ", " between the two |
| CodeGenerator.JoinCommaSnoc | code_generator.py:18 | joining one more item adds ", " and the item at the end |
| CodeGenerator.ExecutionLine | code_generator.py:16-19 | no parameters (absent or empty) gives `name()`; one parameter gives `name('p')`; the line always starts with `name(` and ends with `)` |
| CodeGenerator.ExecutionLineSnoc | code_generator.py:18-19 | one more parameter adds `, 'p'` before the closing parenthesis, keeping the others in order |
| CodeGenerator.FormatTemplateLine | code_generator.py:5-15 | each of the ten template lines renders to the matching script line: the import and the call take the fields, the success line takes the name, and `{{e}}` becomes `{e}` |
| CodeGenerator.TemplateRenders | code_generator.py:5-21 | the template formats without error into the ten script lines with both fields substituted and `{e}` unescaped |
| CodeGenerator.GenerateCode | code_generator.py:4-21 | the rendered template is the ten script lines joined, with the action's name and its call statement filled in |
| CodeGenerator.GeneratedScriptShape | code_generator.py:5-15 | every generated script starts with the import of the action and ends with the `if __name__ == "__main__":` stanza |
| Scenarios.GeneratedOpenCalculator | test_open_calculator.py:1-10 | `generate_code("open_calculator")` is exactly the checked-in file |
| Scenarios.GeneratedCreateTextFile | test_create_text_file.py:1-10 | `generate_code("create_text_file", ["example.txt"])` is exactly the checked-in file |
| Scenarios.GeneratedRunShellCommand | test_run_shell_command.py:1-10 | `generate_code("run_shell_command", ["dir"])` is exactly the checked-in file |
| ApiService.FirstRule | api_service.py:40-51 | the result is absent iff no rule fires; otherwise it is the value of a firing rule with none firing before it |
| ApiService.InferParams | api_service.py:40-51 | only records with `"params"` get parameters. "file" in the prompt gives `['example.txt']` and wins over "command", which gives `['dir']`. `['world']` only goes to say_hello names. Nothing else is ever inferred |
| ApiService.InferParamsFollowsRules | api_service.py:40-51 | the if/elif chain equals the first firing rule of the ordered rule table |
| ApiService.InferParamsUsesLastEntry | api_service.py:50 | only the last history entry is consulted |
| ApiService.WorldCarriesOver | api_service.py:47-51 | for say_hello, "world" in the previous prompt is enough when the current prompt has no earlier keyword |
| ApiService.Service.constructor | api_service.py:17-21 | the service starts with the initial registry, empty history and log, and a synced engine |
| ApiService.Service.Execute | api_service.py:35-61 | a missing or empty resolution is rejected and changes nothing. Otherwise the history gains exactly `{"prompt": p}`, the log gains exactly one entry with the parameters inferred from the earlier history, and the response carries the generated script. Registry and engine keep their state |
| ApiService.Service.Monitor | api_service.py:75 | the last `min(10, len(log))` log entries, in their original order |
| ApiService.Service.Register | api_service.py:80-89 | an existing name is rejected and nothing changes. A new name gets exactly one record, with `params` only for a non-empty list, and goes last in the key order. The engine is re-synced and rebuilt. History and log are untouched |
| ApiService.RegisteredNameReachable | api_service.py:88-89 | after registration, a history-backed query in which the new name occurs, and no older one, resolves to it |
| ApiService.UnregisteredUnreachable | rag_engine.py:35-66 | a name the engine does not hold is never the resolution |
| Conversations.OpenCalculatorResolves | test_client.py:6 | with a history, "Open calculator" resolves to `open_calculator` by keyword, past `open_chrome` |
| Conversations.LaunchChromeUsesSearch | test_client.py:7 | with a history, "Launch Google Chrome" matches no keyword and has no marker, so the search decides |
| Conversations.CreateFileUsesSearch | test_client.py:9 | with a history, "Create a text file" matches no keyword (not even `create_text_file`) and has no marker, so the search decides |
| Conversations.RunCommandUsesSearch | test_client.py:10 | with a history, "Run a command" matches no keyword and has no marker, so the search decides |
| Conversations.CheckCpuUsesSearch | test_client1.py:6 | with a history, "Check CPU usage" matches no keyword (neither spelling of `get_cpu_usage` occurs) and has no marker, so the search decides |
| Conversations.ShowItAgainUsesSearch | test_client1.py:7 | "Show it again" after "Check CPU usage" matches nothing directly or in context, so the search on the augmented query decides |
| Conversations.HelloWorldResolves | test_custom.py:15 | with `say_hello` registered last and a history, "Say hello to the world" resolves to it |
| Conversations.SayItAgainResolves | test_custom.py:16 | after "Say hello to the world", "Say it again" resolves to `say_hello` through the context stage |
| Conversations.HelloWorldParams | api_service.py:47-49 | "Say hello to the world" infers `['world']` for `say_hello` |
| Conversations.SayItAgainParams | api_service.py:50-51 | "Say it again" infers `['world']` for `say_hello` from the previous prompt |
| Conversations.RegisterSayHello | test_custom.py:4-10 | registering `say_hello` with `["message"]` on the initial registry succeeds and puts it last |
| Conversations.AskHelloWorld | test_custom.py:15 | on a served-before service, the first prompt runs `say_hello('world')` |
| Conversations.AskSayItAgain | test_custom.py:16 | the follow-up runs `say_hello('world')` too |
| Conversations.CustomClient | test_custom.py:4-21 | the whole client session: registration succeeds and both prompts return the same `say_hello('world')` script |

## Left out

- Sentence encoder and FAISS search: floating-point numerics in foreign libraries. They are a `Searcher` function value over the stored descriptions. The `indices.size == 0` test at rag_engine.py:30 never fires for a one-neighbour search and is not modelled.
- HTTP layer (FastAPI, pydantic, uvicorn, status codes): an error response is a `Rejected` outcome or a `false` result with the state unchanged. The remapping of the duplicate-name 400 into a 500 by the generic handler is not modelled.
- Logging and `print` tracing: side effects with no logic.
- `datetime.now().isoformat()`: the timestamp is a parameter of `Execute`.
- The OS actions of automation_functions.py (browser, `os.system`, psutil, subprocess, file writes): pure I/O. Only its registry constant is transcribed.
- The client scripts test_client.py, test_client1.py and test_custom.py are network clients. Their prompts appear as lemmas and methods over the model. The first prompt a fresh server receives has an empty history, so the search alone decides it.
- End-to-end answers that depend on the search ("Check CPU usage" → `get_cpu_usage`, "Launch Google Chrome" → `open_chrome`): the model proves only that the search decides them (`CheckCpuUsesSearch`, `LaunchChromeUsesSearch`).
- Concurrent requests mutating the shared lists and dict: no concurrency is modelled.
- Non-string parameters (the `str(p)` branch at code_generator.py:18): parameters are strings.
- `lower()` on non-ASCII letters: only 'A'–'Z' are lower-cased.
- `str.format` beyond what the template uses (positional or auto-numbered fields, format specs, conversions, attribute and index access): `Format` covers literal text, `{{`/`}}` escapes and keyword fields. Its lemmas about fields are stated for plain names (`PlainName`): non-empty, not starting with a digit, and without '!', ':', '.' or '['.
- The `__main__` demonstration in code_generator.py:24-27 and the server start at api_service.py:97-98.
- RagEngine.RAGEngine.BuildIndex: requires every current name to be a registry key. The source would raise `KeyError` otherwise, but names are never removed, so that cannot happen.
- ApiService.Service.Execute: requires the engine to be in sync with the registry (`Valid`), which the constructor establishes and every operation preserves. So the `KeyError` a stale name would raise at api_service.py:41 is not an error path of the model.
