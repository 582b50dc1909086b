/**
 * Concrete resolutions over the initial registry, and over it with `say_hello` registered last,
 * that hold whatever the nearest-neighbour search answers: the prompts of the client scripts.
 */
module Conversations {
  import opened Wrappers
  import opened Text
  import opened Metadata
  import opened RagEngine
  import opened CodeGenerator
  import opened ApiService

  /** If the only `c` of a text sits between `a` and `b`, an occurrence of a word whose `k`-th
      letter is `c` starts `k` places before it. */
  lemma UniqueCharPins(a: string, c: char, b: string, p: string, k: nat, i: nat)
    requires Lacks(a, c) && Lacks(b, c) && k < |p| && p[k] == c
    requires OccursAt(a + [c] + b, p, i)
    ensures i + k == |a|
  {
    var t := a + [c] + b;
    assert t[i..i + |p|][k] == c;
  }

  /** The only place a word could start is given away by a unique character; a mismatch there
      rules the word out. */
  lemma PinnedMismatch(a: string, c: char, b: string, p: string, k: nat, m: nat)
    requires Lacks(a, c) && Lacks(b, c) && k < |p| && p[k] == c && k <= |a|
    requires m < |p| && |a| - k + m < |a| + 1 + |b| && (a + [c] + b)[|a| - k + m] != p[m]
    ensures !Contains(a + [c] + b, p)
  {
    var t := a + [c] + b;
    forall i: nat | OccursAt(t, p, i) ensures false {
      UniqueCharPins(a, c, b, p, k, i);
    }
  }

  /** The names after `register_function("say_hello", ...)` on the initial registry. */
  const Registered: seq<string> := InitialNames + ["say_hello"]

  /** A text without 'p', 'u' and 'f' matches none of the initial actions. */
  lemma InitialSkipped(text: string, j: nat)
    requires j < 7 && Lacks(text, 'p') && Lacks(text, 'u') && Lacks(text, 'f')
    ensures !Matches(Registered[j], text)
  {
    if j == 0 { NoMatch("open_chrome", text, 'p'); }
    else if j == 1 { NoMatch("open_calculator", text, 'p'); }
    else if j == 2 { NoMatch("open_notepad", text, 'p'); }
    else if j == 3 { NoMatch("get_cpu_usage", text, 'p'); }
    else if j == 4 { NoMatch("get_ram_usage", text, 'u'); }
    else if j == 5 { NoMatch("run_shell_command", text, 'u'); }
    else { NoMatch("create_text_file", text, 'f'); }
  }

  /** A text without 'p' and 's' matches none of the initial actions before `create_text_file`. */
  lemma InitialSkippedBeforeCreate(text: string, j: nat)
    requires j < 6 && Lacks(text, 'p') && Lacks(text, 's')
    ensures !Matches(InitialNames[j], text)
  {
    if j == 0 { NoMatch("open_chrome", text, 'p'); }
    else if j == 1 { NoMatch("open_calculator", text, 'p'); }
    else if j == 2 { NoMatch("open_notepad", text, 'p'); }
    else if j == 3 { NoMatch("get_cpu_usage", text, 'p'); }
    else if j == 4 { NoMatch("get_ram_usage", text, 's'); }
    else { NoMatch("run_shell_command", text, 's'); }
  }

  /** ... and without 'x' it misses `create_text_file` too. */
  lemma InitialSkippedWithoutX(text: string, j: nat)
    requires j < 7 && Lacks(text, 'p') && Lacks(text, 's') && Lacks(text, 'x')
    ensures !Matches(InitialNames[j], text)
  {
    if j < 6 {
      InitialSkippedBeforeCreate(text, j);
    } else {
      NoMatch("create_text_file", text, 'x');
    }
  }

  /** A text without 'r', 'l', 'd', '_' and without "get cpu usage" matches no initial action. */
  lemma InitialSkippedWithoutCpu(t: string, j: nat)
    requires j < 7 && Lacks(t, 'r') && Lacks(t, 'l') && Lacks(t, 'd') && Lacks(t, '_')
    requires !Contains(t, "get cpu usage")
    ensures !Matches(InitialNames[j], t)
  {
    if j == 0 { NoMatch("open_chrome", t, 'r'); }
    else if j == 1 { NoMatch("open_calculator", t, 'l'); }
    else if j == 2 { NoMatch("open_notepad", t, 'd'); }
    else if j == 3 {
      assert Spaced("get_cpu_usage") == "get cpu usage";
      AbsentChar(t, "get_cpu_usage", '_');
    }
    else if j == 4 { NoMatch("get_ram_usage", t, 'r'); }
    else if j == 5 { NoMatch("run_shell_command", t, 'r'); }
    else { NoMatch("create_text_file", t, 'r'); }
  }

  /** No registered name matches a text without 'o', 'u', 'c' and 'h'. */
  lemma RegisteredSkipped(t: string, j: nat)
    requires j < 8 && Lacks(t, 'o') && Lacks(t, 'u') && Lacks(t, 'c') && Lacks(t, 'h')
    ensures !Matches(Registered[j], t)
  {
    if j == 0 { NoMatch("open_chrome", t, 'o'); }
    else if j == 1 { NoMatch("open_calculator", t, 'o'); }
    else if j == 2 { NoMatch("open_notepad", t, 'o'); }
    else if j == 3 { NoMatch("get_cpu_usage", t, 'u'); }
    else if j == 4 { NoMatch("get_ram_usage", t, 'u'); }
    else if j == 5 { NoMatch("run_shell_command", t, 'u'); }
    else if j == 6 { NoMatch("create_text_file", t, 'c'); }
    else { NoMatch("say_hello", t, 'h'); }
  }

  /** "say hello" occurring in a text makes `say_hello` match it. */
  lemma SayHelloMatches(text: string, i: nat)
    requires OccursAt(text, "say hello", i)
    ensures Matches("say_hello", text)
  {
    assert Spaced("say_hello") == "say hello";
    Occurrence(text, "say hello", i);
  }

  /** A text without 'p', 'u', 'f' in which "say hello" occurs reaches `say_hello` first. */
  lemma OnlySayHelloMatches(t: string, i: nat)
    requires Lacks(t, 'p') && Lacks(t, 'u') && Lacks(t, 'f') && OccursAt(t, "say hello", i)
    ensures Matches(Registered[7], t) && forall j :: 0 <= j < 7 ==> !Matches(Registered[j], t)
  {
    forall j | 0 <= j < 7 ensures !Matches(Registered[j], t) {
      InitialSkipped(t, j);
    }
    SayHelloMatches(t, i);
  }

  // test_custom.py: "Say hello to the world", then "Say it again".

  lemma HelloWorldLower()
    ensures Lower("Say hello to the world") == "say hello to the world"
  {}

  lemma HelloWorldLacks()
    ensures var t := "say hello to the world";
            Lacks(t, 'p') && Lacks(t, 'u') && Lacks(t, 'f') && Lacks(t, 'c')
  {}

  lemma HelloWorldOpens()
    ensures OccursAt("say hello to the world", "say hello", 0)
  {
    assert "say hello to the world"[0..9] == "say hello";
  }

  /** test_custom.py's first prompt, with some history: the keyword stage finds `say_hello`. */
  lemma HelloWorldResolves(e: RAGEngine, chatHistory: seq<ChatEntry>)
    requires chatHistory != [] && e.functionNames == Registered
    ensures e.Resolve(chatHistory, "Say hello to the world") == Some("say_hello")
  {
    HelloWorldLower();
    HelloWorldLacks();
    HelloWorldOpens();
    OnlySayHelloMatches("say hello to the world", 0);
    FirstKeywordMatchWins(e, chatHistory, "Say hello to the world", 7);
  }

  lemma SayItAgainLower()
    ensures Lower("Say it again") == "say it again"
  {}

  lemma SayItAgainLacksName()
    ensures var t := "say it again";
            Lacks(t, 'o') && Lacks(t, 'u') && Lacks(t, 'c') && Lacks(t, 'h')
  {}

  lemma SayItAgainAbsentChar()
    ensures var t := "say it again";
            Lacks(t, 'p') && Lacks(t, 'f') && Lacks(t, 'w')
  {}

  /** The lower-cased context-augmented follow-up, piece by piece. */
  lemma SayItAgainContextLower()
    ensures Lower(CombinedQuery("Say it again", "Say hello to the world")) ==
            "say it again" + " (context: " + "say hello to the world" + ")"
  {
    LowerAppend("Say it again", " (context: ");
    LowerAppend("Say it again" + " (context: ", "Say hello to the world");
    LowerAppend("Say it again" + " (context: " + "Say hello to the world", ")");
    SayItAgainLower();
    HelloWorldLower();
    assert Lower(" (context: ") == " (context: ";
    assert Lower(")") == ")";
  }

  lemma SayItAgainDirectMisses()
    ensures forall j :: 0 <= j < 8 ==> !Matches(Registered[j], Lower("Say it again"))
  {
    SayItAgainLower();
    SayItAgainLacksName();
    forall j | 0 <= j < 8 ensures !Matches(Registered[j], "say it again") {
      RegisteredSkipped("say it again", j);
    }
  }

  lemma SayItAgainMarked()
    ensures HasMarker(Lower("Say it again"))
  {
    SayItAgainLower();
    assert "say it again"[4..6] == "it";
    Occurrence("say it again", "it", 4);
  }

  lemma ContextLacks()
    ensures Lacks(" (context: ", 'p') && Lacks(" (context: ", 'u') && Lacks(" (context: ", 'f')
    ensures Lacks(")", 'p') && Lacks(")", 'u') && Lacks(")", 'f')
  {}

  /** The augmented follow-up lacks 'p', 'u' and 'f' ... */
  lemma SayItAgainContextLacks(c: char)
    requires c == 'p' || c == 'u' || c == 'f'
    ensures Lacks("say it again" + " (context: " + "say hello to the world" + ")", c)
  {
    SayItAgainLacksName();
    SayItAgainAbsentChar();
    ContextLacks();
    HelloWorldLacks();
    LacksConcat("say it again", " (context: ", c);
    LacksConcat("say it again" + " (context: ", "say hello to the world", c);
    LacksConcat("say it again" + " (context: " + "say hello to the world", ")", c);
  }

  /** ... and has "say hello" right after the context marker. */
  lemma SayItAgainContextOccurs()
    ensures OccursAt("say it again" + " (context: " + "say hello to the world" + ")", "say hello", 23)
  {
    HelloWorldOpens();
    OccursRight("say it again" + " (context: ", "say hello to the world", "say hello", 0);
    OccursLeft("say it again" + " (context: " + "say hello to the world", ")", "say hello", 23);
  }

  lemma SayItAgainContextMatches()
    ensures var t := Lower(CombinedQuery("Say it again", "Say hello to the world"));
            Matches(Registered[7], t) && forall j :: 0 <= j < 7 ==> !Matches(Registered[j], t)
  {
    SayItAgainContextLower();
    SayItAgainContextLacks('p');
    SayItAgainContextLacks('u');
    SayItAgainContextLacks('f');
    SayItAgainContextOccurs();
    OnlySayHelloMatches("say it again" + " (context: " + "say hello to the world" + ")", 23);
  }

  /** test_custom.py's follow-up "Say it again": only the context stage finds `say_hello`. */
  lemma SayItAgainResolves(e: RAGEngine, chatHistory: seq<ChatEntry>)
    requires chatHistory != [] && e.functionNames == Registered
    requires chatHistory[|chatHistory| - 1].prompt == "Say hello to the world"
    ensures e.Resolve(chatHistory, "Say it again") == Some("say_hello")
  {
    SayItAgainDirectMisses();
    SayItAgainMarked();
    SayItAgainContextMatches();
    ContextKeywordOverrides(e, chatHistory, "Say it again", 7);
  }

  // "Check CPU usage" (test_client.py, and first in test_client1.py), then "Show it again"
  // (test_client1.py).

  lemma CheckCpuUsageLower()
    ensures Lower("Check CPU usage") == "check cpu usage"
  {}

  lemma CheckCpuUsagePieces()
    ensures "check cpu usage" == "check c" + "p" + "u usage"
  {}

  lemma CheckCpuUsageLacks()
    ensures var a, b := "check c", "u usage";
            Lacks(a, 'p') && Lacks(b, 'p') &&
            Lacks(a, 'r') && Lacks(a, 'l') && Lacks(a, 'd') && Lacks(a, '_') && Lacks(a, 'i') &&
            Lacks(b, 'r') && Lacks(b, 'l') && Lacks(b, 'd') && Lacks(b, '_') && Lacks(b, 'i')
  {}

  /** "get cpu usage" is not in "check cpu usage": its only 'p' is at 7, which would put the 'g'
      at 2, where there is an 'e'. */
  lemma NoGetCpuInCheck()
    ensures !Contains("check c" + "p" + "u usage", "get cpu usage")
  {
    CheckCpuUsageLacks();
    PinnedMismatch("check c", 'p', "u usage", "get cpu usage", 5, 0);
  }

  /** With a history, "Check CPU usage" contains neither spelling of `get_cpu_usage` (nor any other
      name) and has no marker, so the search decides. */
  lemma CheckCpuUsesSearch(e: RAGEngine, chatHistory: seq<ChatEntry>)
    requires chatHistory != [] && e.functionNames == InitialNames
    ensures e.Resolve(chatHistory, "Check CPU usage") == e.RetrieveFunction("Check CPU usage")
  {
    var a, b := "check c", "u usage";
    CheckCpuUsageLower();
    CheckCpuUsagePieces();
    CheckCpuUsageLacks();
    forall c | c == 'r' || c == 'l' || c == 'd' || c == '_' || c == 'i' ensures Lacks(a + "p" + b, c) {
      LacksConcat(a, "p", c);
      LacksConcat(a + "p", b, c);
    }
    NoGetCpuInCheck();
    forall j | 0 <= j < 7 ensures !Matches(e.functionNames[j], Lower("Check CPU usage")) {
      InitialSkippedWithoutCpu(a + "p" + b, j);
    }
    AbsentChar(a + "p" + b, "it", 'i');
    AbsentChar(a + "p" + b, "again", 'i');
    NoMarkerKeepsSearchResult(e, chatHistory, "Check CPU usage");
  }

  lemma ShowItAgainLower()
    ensures Lower("Show it again") == "show it again"
  {}

  lemma ShowItAgainLacks()
    ensures var t := "show it again";
            Lacks(t, 'p') && Lacks(t, 'u') && Lacks(t, 'f')
  {}

  lemma ShowItAgainDirectMisses()
    ensures forall j :: 0 <= j < 7 ==> !Matches(InitialNames[j], Lower("Show it again"))
  {
    ShowItAgainLower();
    ShowItAgainLacks();
    forall j | 0 <= j < 7 ensures !Matches(InitialNames[j], "show it again") {
      InitialSkipped("show it again", j);
    }
  }

  lemma ShowItAgainMarked()
    ensures HasMarker(Lower("Show it again"))
  {
    ShowItAgainLower();
    assert "show it again"[5..7] == "it";
    Occurrence("show it again", "it", 5);
  }

  lemma ShowItAgainContextPieces()
    ensures "show it again" + " (context: " + "check cpu usage" + ")" ==
            "show it again (context: check c" + "p" + "u usage)"
  {
    assert "show it again" + " (context: " == "show it again (context: ";
    assert "check cpu usage" + ")" == "check c" + "p" + "u usage)";
  }

  lemma ShowItAgainContextLower()
    ensures Lower(CombinedQuery("Show it again", "Check CPU usage")) ==
            "show it again (context: check c" + "p" + "u usage)"
  {
    LowerAppend("Show it again", " (context: ");
    LowerAppend("Show it again" + " (context: ", "Check CPU usage");
    LowerAppend("Show it again" + " (context: " + "Check CPU usage", ")");
    ShowItAgainLower();
    CheckCpuUsageLower();
    assert Lower(" (context: ") == " (context: ";
    assert Lower(")") == ")";
    ShowItAgainContextPieces();
  }

  lemma ShowItAgainContextLacks()
    ensures var a := "show it again (context: check c";
            Lacks(a, 'r') && Lacks(a, 'l') && Lacks(a, 'd')
  {}

  lemma ShowItAgainContextLacksMore()
    ensures var a, b := "show it again (context: check c", "u usage)";
            Lacks(a, '_') && Lacks(a, 'p') &&
            Lacks(b, 'r') && Lacks(b, 'l') && Lacks(b, 'd') && Lacks(b, '_') && Lacks(b, 'p')
  {}

  /** "get cpu usage" does not occur in the augmented "Show it again" query: its only 'p' is at 31,
      which would put the 'g' at 26, where there is an 'e'. */
  lemma NoGetCpu()
    ensures !Contains("show it again (context: check c" + "p" + "u usage)", "get cpu usage")
  {
    ShowItAgainContextLacksMore();
    PinnedMismatch("show it again (context: check c", 'p', "u usage)", "get cpu usage", 5, 0);
  }

  /** "Show it again" after "Check CPU usage" finds no keyword even with the context: the answer is
      the search on the augmented query, whatever that returns. */
  lemma ShowItAgainUsesSearch(e: RAGEngine, chatHistory: seq<ChatEntry>)
    requires chatHistory != [] && e.functionNames == InitialNames
    requires chatHistory[|chatHistory| - 1].prompt == "Check CPU usage"
    ensures e.Resolve(chatHistory, "Show it again") == e.RetrieveFunction(CombinedQuery("Show it again", "Check CPU usage"))
  {
    var a, b := "show it again (context: check c", "u usage)";
    ShowItAgainDirectMisses();
    ShowItAgainMarked();
    ShowItAgainContextLower();
    ShowItAgainContextLacks();
    ShowItAgainContextLacksMore();
    forall c | c == 'r' || c == 'l' || c == 'd' || c == '_' ensures Lacks(a + "p" + b, c) {
      LacksConcat(a, "p", c);
      LacksConcat(a + "p", b, c);
    }
    NoGetCpu();
    forall j | 0 <= j < 7
      ensures !Matches(e.functionNames[j], Lower(CombinedQuery("Show it again", "Check CPU usage")))
    {
      InitialSkippedWithoutCpu(a + "p" + b, j);
    }
    ContextFallsBackToSearch(e, chatHistory, "Show it again");
  }

  // test_client.py: "Launch Google Chrome", "Run a command", "Create a text file".

  lemma OpenCalculatorLower()
    ensures Lower("Open calculator") == "open calculator"
  {}

  lemma OpenCalculatorLacks()
    ensures Lacks("open calculator", 'h')
  {}

  lemma OpenCalculatorMatches()
    ensures !Matches("open_chrome", "open calculator") && Matches("open_calculator", "open calculator")
  {
    OpenCalculatorLacks();
    NoMatch("open_chrome", "open calculator", 'h');
    assert Spaced("open_calculator") == "open calculator";
    Occurrence("open calculator", "open calculator", 0);
  }

  /** test_client.py's first prompt, with some history: `open_chrome` is passed over and the
      spaced `open_calculator` is the prompt itself. */
  lemma OpenCalculatorResolves(e: RAGEngine, chatHistory: seq<ChatEntry>)
    requires chatHistory != [] && e.functionNames == InitialNames
    ensures e.Resolve(chatHistory, "Open calculator") == Some("open_calculator")
  {
    OpenCalculatorLower();
    OpenCalculatorMatches();
    FirstKeywordMatchWins(e, chatHistory, "Open calculator", 1);
  }

  lemma LaunchChromeLower()
    ensures Lower("Launch Google Chrome") == "launch google chrome"
  {}

  lemma LaunchChromeLacks()
    ensures var t := "launch google chrome";
            Lacks(t, 'p') && Lacks(t, 's') && Lacks(t, 'x') && Lacks(t, 'i')
  {}

  /** test_client.py's "Launch Google Chrome", with some history: no keyword and no marker. */
  lemma LaunchChromeUsesSearch(e: RAGEngine, chatHistory: seq<ChatEntry>)
    requires chatHistory != [] && e.functionNames == InitialNames
    ensures e.Resolve(chatHistory, "Launch Google Chrome") == e.RetrieveFunction("Launch Google Chrome")
  {
    LaunchChromeLower();
    LaunchChromeLacks();
    forall j | 0 <= j < 7 ensures !Matches(e.functionNames[j], "launch google chrome") {
      InitialSkippedWithoutX("launch google chrome", j);
    }
    AbsentChar("launch google chrome", "it", 'i');
    AbsentChar("launch google chrome", "again", 'i');
    NoMarkerKeepsSearchResult(e, chatHistory, "Launch Google Chrome");
  }

  lemma RunCommandLower()
    ensures Lower("Run a command") == "run a command"
  {}

  lemma RunCommandLacks()
    ensures var t := "run a command";
            Lacks(t, 'p') && Lacks(t, 's') && Lacks(t, 'x') && Lacks(t, 'i')
  {}

  /** test_client.py's "Run a command", with some history: no keyword and no marker. */
  lemma RunCommandUsesSearch(e: RAGEngine, chatHistory: seq<ChatEntry>)
    requires chatHistory != [] && e.functionNames == InitialNames
    ensures e.Resolve(chatHistory, "Run a command") == e.RetrieveFunction("Run a command")
  {
    RunCommandLower();
    RunCommandLacks();
    forall j | 0 <= j < 7 ensures !Matches(e.functionNames[j], "run a command") {
      InitialSkippedWithoutX("run a command", j);
    }
    AbsentChar("run a command", "it", 'i');
    AbsentChar("run a command", "again", 'i');
    NoMarkerKeepsSearchResult(e, chatHistory, "Run a command");
  }

  lemma CreateFileLower()
    ensures Lower("Create a text file") == "create a text file"
  {}

  lemma CreateFileLacks()
    ensures var t := "create a text file";
            Lacks(t, 'p') && Lacks(t, 's') && Lacks(t, 'g') && Lacks(t, '_')
  {}

  lemma CreateFileLacksAround()
    ensures Lacks("create a te", 'x') && Lacks("t file", 'x') && Lacks("create a text f", 'i') && Lacks("le", 'i')
  {}

  /** "Create a text file" keeps the article, so "create text file" does not occur in it: the
      only 'x' is at 11, which would put the 'c' at 2, where there is an 'e'. */
  lemma NoSpacedCreate()
    ensures !Contains("create a text file", "create text file")
  {
    CreateFileLacksAround();
    assert "create a text file" == "create a te" + "x" + "t file";
    PinnedMismatch("create a te", 'x', "t file", "create text file", 9, 0);
  }

  /** Nor does the marker "it": the only 'i' is at 15, followed by an 'l'. */
  lemma NoItInCreate()
    ensures !Contains("create a text file", "it")
  {
    CreateFileLacksAround();
    assert "create a text file" == "create a text f" + "i" + "le";
    PinnedMismatch("create a text f", 'i', "le", "it", 0, 1);
  }

  lemma CreateFileMisses(j: nat)
    requires j < 7
    ensures !Matches(InitialNames[j], "create a text file")
  {
    var t := "create a text file";
    CreateFileLacks();
    if j < 6 {
      InitialSkippedBeforeCreate(t, j);
    } else {
      assert Spaced("create_text_file") == "create text file";
      NoSpacedCreate();
      AbsentChar(t, "create_text_file", '_');
    }
  }

  /** test_client.py's and test_client1.py's "Create a text file", with any non-empty history: no
      keyword fires, not even `create_text_file`'s, and there is no marker. */
  lemma CreateFileUsesSearch(e: RAGEngine, chatHistory: seq<ChatEntry>)
    requires chatHistory != [] && e.functionNames == InitialNames
    ensures e.Resolve(chatHistory, "Create a text file") == e.RetrieveFunction("Create a text file")
  {
    CreateFileLower();
    forall j | 0 <= j < 7 ensures !Matches(e.functionNames[j], "create a text file") {
      CreateFileMisses(j);
    }
    NoItInCreate();
    CreateFileLacks();
    AbsentChar("create a text file", "again", 'g');
    NoMarkerKeepsSearchResult(e, chatHistory, "Create a text file");
  }

  // The parameters both prompts of test_custom.py get.

  /** Neither "file" nor "command" is in the lower-cased first prompt ... */
  lemma HelloWorldNoFileOrCommand()
    ensures !Contains("say hello to the world", "file") && !Contains("say hello to the world", "command")
  {
    HelloWorldLacks();
    AbsentChar("say hello to the world", "file", 'f');
    AbsentChar("say hello to the world", "command", 'c');
  }

  /** ... but "world" is. */
  lemma HelloWorldHasWorld()
    ensures Contains("say hello to the world", "world")
  {
    assert "say hello to the world"[17..22] == "world";
    Occurrence("say hello to the world", "world", 17);
  }

  /** None of "file", "command" or "world" is in the lower-cased follow-up. */
  lemma SayItAgainParamWords()
    ensures !Contains("say it again", "file")
    ensures !Contains("say it again", "command")
    ensures !Contains("say it again", "world")
  {
    SayItAgainLacksName();
    SayItAgainAbsentChar();
    AbsentChar("say it again", "file", 'f');
    AbsentChar("say it again", "command", 'c');
    AbsentChar("say it again", "world", 'w');
  }

  lemma SayHelloNamesItself()
    ensures Contains("say_hello", "say_hello")
  {
    Occurrence("say_hello", "say_hello", 0);
  }

  /** `say_hello` with a `"params"` key infers `['world']` from "Say hello to the world". */
  lemma HelloWorldParams(d: Descriptor, history: seq<ChatEntry>)
    requires d.params.Some?
    ensures InferParams(d, "say_hello", "Say hello to the world", history) == Some(["world"])
  {
    HelloWorldLower();
    HelloWorldNoFileOrCommand();
    HelloWorldHasWorld();
    SayHelloNamesItself();
  }

  /** ... and from "Say it again" when the previous prompt was "Say hello to the world". */
  lemma SayItAgainParams(d: Descriptor, history: seq<ChatEntry>)
    requires d.params.Some?
    requires history != [] && history[|history| - 1].prompt == "Say hello to the world"
    ensures InferParams(d, "say_hello", "Say it again", history) == Some(["world"])
  {
    SayItAgainLower();
    SayItAgainParamWords();
    SayHelloNamesItself();
    HelloWorldLower();
    HelloWorldHasWorld();
    WorldCarriesOver(d, "say_hello", "Say it again", history);
  }

  /** A request whose resolution and parameters are already known runs that action. */
  method ExecuteResolved(s: Service, prompt: string, timestamp: string, name: string, params: Option<seq<string>>)
    returns (o: Outcome)
    requires s.Valid() && s.ragEngine.Resolve(s.chatHistory, prompt) == Some(name) && name != ""
    requires name in s.functionMetadata.entries
    requires InferParams(s.functionMetadata.entries[name], name, prompt, s.chatHistory) == params
    modifies s
    ensures o == Executed(name, GenerateCode(name, params))
    ensures s.Valid() && s.functionMetadata == old(s.functionMetadata)
    ensures s.chatHistory == old(s.chatHistory) + [ChatEntry(prompt)]
  {
    o := s.Execute(prompt, timestamp);
  }

  /** The registration request of test_custom.py on the initial registry. */
  method RegisterSayHello(s: Service) returns (ok: bool)
    requires s.Valid() && s.functionMetadata == Initial
    modifies s, s.ragEngine
    ensures ok && s.Valid() && s.chatHistory == old(s.chatHistory)
    ensures s.ragEngine.functionNames == Registered
    ensures "say_hello" in s.functionMetadata.entries && s.functionMetadata.entries["say_hello"].params == Some(["message"])
  {
    ok := s.Register("say_hello", "Prints a hello message to the console", Some(["message"]));
  }

  /** The first prompt of test_custom.py, once history exists and `say_hello` is registered. */
  method AskHelloWorld(s: Service, timestamp: string) returns (o: Outcome)
    requires s.Valid() && s.ragEngine.functionNames == Registered && s.chatHistory != []
    requires "say_hello" in s.functionMetadata.entries && s.functionMetadata.entries["say_hello"].params.Some?
    modifies s
    ensures o == Executed("say_hello", GenerateCode("say_hello", Some(["world"])))
    ensures s.Valid() && s.ragEngine.functionNames == Registered && s.functionMetadata == old(s.functionMetadata)
    ensures s.chatHistory != [] && s.chatHistory[|s.chatHistory| - 1].prompt == "Say hello to the world"
  {
    HelloWorldResolves(s.ragEngine, s.chatHistory);
    HelloWorldParams(s.functionMetadata.entries["say_hello"], s.chatHistory);
    o := ExecuteResolved(s, "Say hello to the world", timestamp, "say_hello", Some(["world"]));
  }

  /** After "Say hello to the world", "Say it again" resolves to `say_hello` and gets `['world']`. */
  lemma SayItAgainAnswered(e: RAGEngine, d: Descriptor, history: seq<ChatEntry>)
    requires history != [] && e.functionNames == Registered && d.params.Some?
    requires history[|history| - 1].prompt == "Say hello to the world"
    ensures e.Resolve(history, "Say it again") == Some("say_hello")
    ensures InferParams(d, "say_hello", "Say it again", history) == Some(["world"])
  {
    SayItAgainResolves(e, history);
    SayItAgainParams(d, history);
  }

  /** The follow-up prompt of test_custom.py, right after the first. */
  method AskSayItAgain(s: Service, timestamp: string) returns (o: Outcome)
    requires s.Valid() && s.ragEngine.functionNames == Registered
    requires s.chatHistory != [] && s.chatHistory[|s.chatHistory| - 1].prompt == "Say hello to the world"
    requires "say_hello" in s.functionMetadata.entries && s.functionMetadata.entries["say_hello"].params.Some?
    modifies s
    ensures o == Executed("say_hello", GenerateCode("say_hello", Some(["world"])))
  {
    SayItAgainAnswered(s.ragEngine, s.functionMetadata.entries["say_hello"], s.chatHistory);
    o := ExecuteResolved(s, "Say it again", timestamp, "say_hello", Some(["world"]));
  }

  /** test_custom.py against a service that has already answered a request: `say_hello` is
      registered, and both prompts run it with `['world']`, the second by carrying the word
      over from the first. */
  method CustomClient(s: Service, firstTimestamp: string, secondTimestamp: string)
    returns (registered: bool, first: Outcome, second: Outcome)
    requires s.Valid() && s.functionMetadata == Initial && s.chatHistory != []
    modifies s, s.ragEngine
    ensures registered
    ensures first == Executed("say_hello", GenerateCode("say_hello", Some(["world"])))
    ensures second == first
  {
    registered := RegisterSayHello(s);
    first := AskHelloWorld(s, firstTimestamp);
    second := AskSayItAgain(s, secondTimestamp);
  }
}
