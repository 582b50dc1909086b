/**
 * The code template renderer (`CodeGenerator.generate_code`): a Python script that imports the
 * chosen action, calls it with the quoted parameters and reports success or the exception.
 *
 * The template is rendered by `str.format` with two keyword fields, so the fragment of
 * `str.format` the template uses is modelled too: literal text, `{{` and `}}` escapes, and
 * `{name}` replacement fields looked up among the keyword arguments.
 */
module CodeGenerator {
  import opened Wrappers
  import opened Text

  datatype FormatError =
    | SingleClose      // a '}' that is not part of "}}"
    | UnclosedField    // a '{' with no '}' after it
    | OpenInField      // a '{' inside a field name
    | MissingKey(key: string)

  function Prepend(s: string, r: Result<string, FormatError>): Result<string, FormatError>
  {
    match r
    case Success(v) => Success(s + v)
    case Failure(e) => Failure(e)
  }

  /** Position of the first '}' in `t` at or after `i`, or `|t|` when there is none. */
  function FindClose(t: string, i: nat): (j: nat)
    requires i <= |t|
    ensures i <= j <= |t|
    ensures j < |t| ==> t[j] == '}'
    ensures forall k :: i <= k < j ==> t[k] != '}'
    decreases |t| - i
  {
    if i == |t| || t[i] == '}' then i else FindClose(t, i + 1)
  }

  /** Python's `str.format` with keyword arguments only, for templates whose fields are plain
      names. */
  function Format(t: string, args: map<string, string>): Result<string, FormatError>
    decreases |t|
  {
    if t == [] then Success([])
    else if t[0] == '{' then
      if |t| > 1 && t[1] == '{' then Prepend("{", Format(t[2..|t|], args))
      else
        var close := FindClose(t, 1);
        if close == |t| then Failure(UnclosedField)
        else
          var key := t[1..close];
          if '{' in key then Failure(OpenInField)
          else if key !in args then Failure(MissingKey(key))
          else Prepend(args[key], Format(t[close + 1..|t|], args))
    else if t[0] == '}' then
      if |t| > 1 && t[1] == '}' then Prepend("}", Format(t[2..|t|], args))
      else Failure(SingleClose)
    else Prepend([t[0]], Format(t[1..|t|], args))
  }

  /** Neither '{' nor '}' is at any position of `s`. */
  predicate BraceFree(s: string)
  {
    Lacks(s, '{') && Lacks(s, '}')
  }

  /** A field name that `str.format` reads as one keyword name: not empty, not an argument number,
      and with no conversion ('!'), format spec (':'), attribute ('.') or index ('[') after it. */
  predicate PlainName(key: string)
  {
    key != [] && !('0' <= key[0] <= '9') &&
    Lacks(key, '!') && Lacks(key, ':') && Lacks(key, '.') && Lacks(key, '[')
  }

  /** Text without braces formats to itself. */
  lemma {:induction false} FormatPlain(s: string, args: map<string, string>)
    requires BraceFree(s)
    ensures Format(s, args) == Success(s)
    decreases |s|
  {
    if s != [] {
      assert forall i :: 0 <= i < |s| - 1 ==> s[1..|s|][i] == s[i + 1];
      FormatPlain(s[1..|s|], args);
      assert [s[0]] + s[1..|s|] == s;
    }
  }

  lemma {:induction false} FindCloseAt(t: string, i: nat, j: nat)
    requires i <= j < |t| && t[j] == '}'
    requires forall k :: i <= k < j ==> t[k] != '}'
    ensures FindClose(t, i) == j
    decreases j - i
  {
    if i < j {
      FindCloseAt(t, i + 1, j);
    }
  }

  /** A replacement field renders as its argument. */
  lemma FormatField(key: string, args: map<string, string>)
    requires BraceFree(key) && PlainName(key) && key in args
    ensures Format("{" + key + "}", args) == Success(args[key])
  {
    var t := "{" + key + "}";
    assert t[0] == '{' && t[1] != '{';
    FindCloseAt(t, 1, |t| - 1);
    assert t[1..|t| - 1] == key;
    assert t[|t|..|t|] == [];
    assert args[key] + [] == args[key];
  }

  /** Doubled braces are escapes for single ones. */
  lemma FormatEscapes(m: string, args: map<string, string>)
    requires BraceFree(m)
    ensures Format("{{" + m + "}}", args) == Success("{" + m + "}")
  {
    var t := "{{" + m + "}}";
    var u := m + "}}";
    assert t[2..|t|] == u;
    FormatPlain(m, args);
    FormatAppend(m, "}}", args);
    assert "}}"[2..2] == [];
    assert Format([], args) == Success([]);
    assert "}" + [] == "}";
    assert Format("}}", args) == Success("}");
    assert "{" + (m + "}") == "{" + m + "}";
  }

  /** The errors `str.format` raises on the shapes nearest the template's: a lone '}', a '{' that
      is never closed, and a field whose name is not a keyword argument. */
  lemma FormatErrors(key: string, args: map<string, string>)
    requires BraceFree(key)
    ensures Format("}" + key, args) == Failure(SingleClose)
    ensures Format("{" + key, args) == Failure(UnclosedField)
    ensures PlainName(key) && key !in args ==> Format("{" + key + "}", args) == Failure(MissingKey(key))
  {
    var u := "{" + key;
    assert forall k :: 1 <= k < |u| ==> u[k] == key[k - 1];
    var t := "{" + key + "}";
    assert forall k :: 1 <= k < |t| - 1 ==> t[k] == key[k - 1];
    FindCloseAt(t, 1, |t| - 1);
    assert t[1..|t| - 1] == key;
  }

  lemma {:induction false} FindCloseAppend(a: string, b: string, i: nat)
    requires i <= |a| && FindClose(a, i) < |a|
    ensures FindClose(a + b, i) == FindClose(a, i)
    decreases |a| - i
  {
    if a[i] != '}' {
      FindCloseAppend(a, b, i + 1);
    }
  }

  lemma PrependPrepend(x: string, y: string, r: Result<string, FormatError>)
    ensures Prepend(x, Prepend(y, r)) == Prepend(x + y, r)
  {
    if r.Success? {
      assert x + (y + r.value) == (x + y) + r.value;
    }
  }

  /** Formatting is compositional: a template that formats on its own formats the same in front. */
  lemma {:induction false} FormatAppend(a: string, b: string, args: map<string, string>)
    requires Format(a, args).Success?
    ensures Format(a + b, args) == Prepend(Format(a, args).value, Format(b, args))
    decreases |a|
  {
    var t := a + b;
    if a == [] {
      assert t == b;
      if Format(b, args).Success? {
        assert [] + Format(b, args).value == Format(b, args).value;
      }
    } else if a[0] == '{' {
      if |a| > 1 && a[1] == '{' {
        assert t[2..|t|] == a[2..|a|] + b;
        FormatAppend(a[2..|a|], b, args);
        PrependPrepend("{", Format(a[2..|a|], args).value, Format(b, args));
      } else {
        var close := FindClose(a, 1);
        FindCloseAppend(a, b, 1);
        assert t[1..close] == a[1..close];
        assert t[close + 1..|t|] == a[close + 1..|a|] + b;
        FormatAppend(a[close + 1..|a|], b, args);
        PrependPrepend(args[a[1..close]], Format(a[close + 1..|a|], args).value, Format(b, args));
      }
    } else if a[0] == '}' {
      assert t[2..|t|] == a[2..|a|] + b;
      FormatAppend(a[2..|a|], b, args);
      PrependPrepend("}", Format(a[2..|a|], args).value, Format(b, args));
    } else {
      assert t[1..|t|] == a[1..|a|] + b;
      FormatAppend(a[1..|a|], b, args);
      PrependPrepend([a[0]], Format(a[1..|a|], args).value, Format(b, args));
    }
  }

  /** The template of generate_code, line by line (each line keeps its newline); the replacement
      fields and the escaped braces are written as pieces of their own. */
  const TemplateLines: seq<string> := [
    "from automation_functions import " + "{function_name}" + "\n",
    "def main():\n",
    "    try:\n",
    "        " + "{execution}" + "\n",
    "        print(\"" + "{function_name}" + " executed successfully.\")\n",
    "    except Exception as e:\n",
    "        print(f\"Error executing function: " + "{{e}}" + "\")\n",
    "\n",
    "if __name__ == \"__main__\":\n",
    "    main()\n"
  ]

  /** The lines one after another, with nothing between them. */
  function Concat(lines: seq<string>): string
  {
    if lines == [] then "" else lines[0] + Concat(lines[1..])
  }

  const Template: string := Concat(TemplateLines)

  /** The closing stanza every generated script ends with. */
  const MainGuard: string := "if __name__ == \"__main__\":\n    main()\n"

  /** The items with ", " between each two of them. */
  function JoinComma(xs: seq<string>): string
  {
    if xs == [] then ""
    else if |xs| == 1 then xs[0]
    else xs[0] + ", " + JoinComma(xs[1..])
  }

  /** The text between the outer single quotes of `q`, or `q` itself when it is not quoted. */
  function Unquote(q: string): string
  {
    if |q| >= 2 && q[0] == '\'' && q[|q| - 1] == '\'' then q[1..|q| - 1] else q
  }

  /** Each parameter in single quotes, unescaped and in order: one quoted item per parameter,
      from which `Unquote` gives the parameter back. */
  function Quoted(params: seq<string>): (qs: seq<string>)
    ensures |qs| == |params|
    ensures forall i :: 0 <= i < |params| ==>
              |qs[i]| == |params[i]| + 2 && qs[i][0] == '\'' && qs[i][|qs[i]| - 1] == '\'' && Unquote(qs[i]) == params[i]
  {
    var qs := seq(|params|, i requires 0 <= i < |params| => "'" + params[i] + "'");
    assert forall i :: 0 <= i < |params| ==> qs[i][1..|qs[i]| - 1] == params[i];
    qs
  }

  /** Joining one more item puts the separator between it and what came before. */
  lemma {:induction false} JoinCommaSnoc(xs: seq<string>, y: string)
    requires xs != []
    ensures JoinComma(xs + [y]) == JoinComma(xs) + ", " + y
  {
    if |xs| == 1 {
      assert xs + [y] == [xs[0], y];
    } else {
      assert (xs + [y])[1..] == xs[1..] + [y];
      JoinCommaSnoc(xs[1..], y);
    }
  }

  /** Joining two non-empty lists is joining each and putting ", " between the two. */
  lemma {:induction false} JoinCommaConcat(xs: seq<string>, ys: seq<string>)
    requires xs != [] && ys != []
    ensures JoinComma(xs + ys) == JoinComma(xs) + ", " + JoinComma(ys)
    decreases |xs|
  {
    if |xs| == 1 {
      assert (xs + ys)[1..] == ys;
    } else {
      assert (xs + ys)[1..] == xs[1..] + ys;
      JoinCommaConcat(xs[1..], ys);
    }
  }

  /** The call statement: no arguments when `params` is `None` or empty, otherwise every parameter
      quoted, in order, separated by ", ". */
  function ExecutionLine(functionName: string, params: Option<seq<string>>): (line: string)
    ensures params.None? || params.value == [] ==> line == functionName + "()"
    ensures params.Some? && |params.value| == 1 ==> line == functionName + "('" + params.value[0] + "')"
    ensures |line| >= |functionName| + 2 && line[..|functionName| + 1] == functionName + "(" && line[|line| - 1] == ')'
  {
    if params.None? || params.value == [] then functionName + "()"
    else functionName + "(" + JoinComma(Quoted(params.value)) + ")"
  }

  /** Quoting one more parameter appends its quoted form. */
  lemma QuotedSnoc(params: seq<string>, p: string)
    ensures Quoted(params + [p]) == Quoted(params) + ["'" + p + "'"]
  {
    var l, r := Quoted(params + [p]), Quoted(params) + ["'" + p + "'"];
    assert |l| == |r|;
    forall i | 0 <= i < |l| ensures l[i] == r[i] {
      if i < |params| {
        assert (params + [p])[i] == params[i];
      }
    }
  }

  lemma Regroup(f: string, j: string, p: string)
    ensures f + "(" + (j + ", " + ("'" + p + "'")) + ")" == f + "(" + j + ", '" + p + "')"
  {
    assert ", " + ("'" + p + "'") + ")" == ", '" + p + "')";
  }

  /** One more parameter adds one more quoted argument at the end of the call, after ", ". */
  lemma ExecutionLineSnoc(functionName: string, params: seq<string>, p: string)
    requires params != []
    ensures var line := ExecutionLine(functionName, Some(params));
            ExecutionLine(functionName, Some(params + [p])) == line[..|line| - 1] + ", '" + p + "')"
  {
    var qs := Quoted(params);
    QuotedSnoc(params, p);
    JoinCommaSnoc(qs, "'" + p + "'");
    var j := JoinComma(qs);
    var head := functionName + "(" + j;
    var line := ExecutionLine(functionName, Some(params));
    assert line == head + ")";
    assert line[..|line| - 1] == head;
    Regroup(functionName, j, p);
  }

  function Fields(functionName: string, execution: string): map<string, string>
  {
    map["function_name" := functionName, "execution" := execution]
  }

  /** The lines of a generated script: the template with both fields filled in. */
  function ScriptLines(functionName: string, execution: string): seq<string>
  {
    [ "from automation_functions import " + functionName + "\n",
      "def main():\n",
      "    try:\n",
      "        " + execution + "\n",
      "        print(\"" + functionName + " executed successfully.\")\n",
      "    except Exception as e:\n",
      "        print(f\"Error executing function: " + "{e}" + "\")\n",
      "\n",
      "if __name__ == \"__main__\":\n",
      "    main()\n" ]
  }

  /** A replacement field between two brace-free texts renders as its argument. */
  lemma FormatAroundField(line: string, a: string, key: string, c: string, args: map<string, string>)
    requires line == a + ("{" + key + "}") + c
    requires BraceFree(a) && BraceFree(c)
    requires BraceFree(key) && PlainName(key) && key in args
    ensures Format(line, args) == Success(a + args[key] + c)
  {
    FormatPlain(a, args);
    FormatField(key, args);
    FormatPlain(c, args);
    FormatAppend(a, "{" + key + "}", args);
    FormatAppend(a + ("{" + key + "}"), c, args);
  }

  /** An escaped pair of braces between two brace-free texts renders as single braces. */
  lemma FormatAroundEscapes(line: string, a: string, m: string, c: string, args: map<string, string>)
    requires line == a + ("{{" + m + "}}") + c
    requires BraceFree(a) && BraceFree(m) && BraceFree(c)
    ensures Format(line, args) == Success(a + ("{" + m + "}") + c)
  {
    var t := "{{" + m + "}}";
    FormatEscapes(m, args);
    FormatPlain(a, args);
    FormatPlain(c, args);
    FormatAppend(a, t, args);
    FormatAppend(a + t, c, args);
  }

  /** Lines that each format on their own format, joined, as the join of their renderings. */
  lemma {:induction false} FormatConcat(lines: seq<string>, rendered: seq<string>, args: map<string, string>)
    requires |lines| == |rendered|
    requires forall i :: 0 <= i < |lines| ==> Format(lines[i], args) == Success(rendered[i])
    ensures Format(Concat(lines), args) == Success(Concat(rendered))
  {
    if lines != [] {
      FormatConcat(lines[1..], rendered[1..], args);
      FormatAppend(lines[0], Concat(lines[1..]), args);
    }
  }

  /** The template's two fields are plain keyword names. */
  lemma FieldNamesPlain()
    ensures BraceFree("function_name") && PlainName("function_name")
    ensures BraceFree("execution") && PlainName("execution")
  {
  }

  lemma FormatImportLine(args: map<string, string>)
    requires "function_name" in args
    ensures Format(TemplateLines[0], args) == Success("from automation_functions import " + args["function_name"] + "\n")
  {
    FieldNamesPlain();
    FormatAroundField(TemplateLines[0], "from automation_functions import ", "function_name", "\n", args);
  }

  lemma FormatCallLine(args: map<string, string>)
    requires "execution" in args
    ensures Format(TemplateLines[3], args) == Success("        " + args["execution"] + "\n")
  {
    FieldNamesPlain();
    FormatAroundField(TemplateLines[3], "        ", "execution", "\n", args);
  }

  lemma FormatSuccessLine(args: map<string, string>)
    requires "function_name" in args
    ensures Format(TemplateLines[4], args) ==
            Success("        print(\"" + args["function_name"] + " executed successfully.\")\n")
  {
    FieldNamesPlain();
    FormatAroundField(TemplateLines[4], "        print(\"", "function_name", " executed successfully.\")\n", args);
  }

  const HandlerPrefix: string := "        print(f\"Error executing function: "

  lemma HandlerPrefixBraceFree()
    ensures BraceFree(HandlerPrefix)
  {
  }

  /** The doubled braces are escapes: `{{e}}` renders as `{e}`. */
  lemma FormatHandlerLine(args: map<string, string>)
    ensures Format(TemplateLines[6], args) == Success("        print(f\"Error executing function: " + "{e}" + "\")\n")
  {
    HandlerPrefixBraceFree();
    FormatAroundEscapes(TemplateLines[6], HandlerPrefix, "e", "\")\n", args);
    assert "{" + "e" + "}" == "{e}";
  }

  /** The `def`, `try` and `except` lines have no fields or escapes and render as themselves. */
  lemma FormatBlockLine(functionName: string, execution: string, i: nat)
    requires i == 1 || i == 2 || i == 5
    ensures Format(TemplateLines[i], Fields(functionName, execution)) == Success(ScriptLines(functionName, execution)[i])
  {
    if i == 1 {
      FormatPlain(TemplateLines[1], Fields(functionName, execution));
    } else if i == 2 {
      FormatPlain(TemplateLines[2], Fields(functionName, execution));
    } else {
      FormatPlain(TemplateLines[5], Fields(functionName, execution));
    }
  }

  /** The blank line and the main guard have no fields or escapes and render as themselves. */
  lemma FormatGuardLine(functionName: string, execution: string, i: nat)
    requires 7 <= i <= 9
    ensures Format(TemplateLines[i], Fields(functionName, execution)) == Success(ScriptLines(functionName, execution)[i])
  {
    if i == 7 {
      FormatPlain(TemplateLines[7], Fields(functionName, execution));
    } else if i == 8 {
      FormatPlain(TemplateLines[8], Fields(functionName, execution));
    } else {
      FormatPlain(TemplateLines[9], Fields(functionName, execution));
    }
  }

  /** Each template line renders to the matching script line. */
  lemma FormatTemplateLine(functionName: string, execution: string, i: nat)
    requires i < |TemplateLines|
    ensures Format(TemplateLines[i], Fields(functionName, execution)) == Success(ScriptLines(functionName, execution)[i])
  {
    if i == 0 {
      FormatImportLine(Fields(functionName, execution));
    } else if i == 3 {
      FormatCallLine(Fields(functionName, execution));
    } else if i == 4 {
      FormatSuccessLine(Fields(functionName, execution));
    } else if i == 6 {
      FormatHandlerLine(Fields(functionName, execution));
    } else if i < 7 {
      FormatBlockLine(functionName, execution, i);
    } else {
      FormatGuardLine(functionName, execution, i);
    }
  }

  /** The template rendered with both fields is the script, line by line. */
  lemma TemplateRenders(functionName: string, execution: string)
    ensures Format(Template, Fields(functionName, execution)) == Success(Concat(ScriptLines(functionName, execution)))
  {
    forall i | 0 <= i < |TemplateLines|
      ensures Format(TemplateLines[i], Fields(functionName, execution)) == Success(ScriptLines(functionName, execution)[i])
    {
      FormatTemplateLine(functionName, execution, i);
    }
    FormatConcat(TemplateLines, ScriptLines(functionName, execution), Fields(functionName, execution));
  }

  lemma {:induction false} ConcatSplit(lines: seq<string>, k: nat)
    requires k <= |lines|
    ensures Concat(lines) == Concat(lines[..k]) + Concat(lines[k..])
  {
    if k > 0 {
      ConcatSplit(lines[1..], k - 1);
      assert lines[1..][..k - 1] == lines[..k][1..];
      assert lines[1..][k - 1..] == lines[k..];
    } else {
      assert lines[k..] == lines;
    }
  }

  /** Every script opens with the import of its action and closes with the main guard. */
  lemma ScriptShape(functionName: string, execution: string)
    ensures var code := Concat(ScriptLines(functionName, execution));
            ("from automation_functions import " + functionName + "\n") <= code &&
            |code| >= |MainGuard| && code[|code| - |MainGuard|..] == MainGuard
  {
    var lines := ScriptLines(functionName, execution);
    ConcatSplit(lines, 8);
    assert lines[8..] == ["if __name__ == \"__main__\":\n", "    main()\n"];
    assert Concat(["    main()\n"]) == "    main()\n";
    assert Concat(lines[8..]) == MainGuard;
    var code := Concat(lines[..8]) + MainGuard;
    assert code[|code| - |MainGuard|..] == MainGuard;
  }

  /** `generate_code`, whose parameter list defaults to none: the template rendered with the action's name
      and its call statement. */
  function GenerateCode(functionName: string, params: Option<seq<string>> := None): (code: string)
    ensures code == Concat(ScriptLines(functionName, ExecutionLine(functionName, params)))
  {
    var execution := ExecutionLine(functionName, params);
    TemplateRenders(functionName, execution);
    Format(Template, Fields(functionName, execution)).value
  }

  /** Every generated script opens with the import of the action and ends with the main guard. */
  lemma GeneratedScriptShape(functionName: string, params: Option<seq<string>>)
    ensures var code := GenerateCode(functionName, params);
            ("from automation_functions import " + functionName + "\n") <= code &&
            |code| >= |MainGuard| && code[|code| - |MainGuard|..] == MainGuard
  {
    ScriptShape(functionName, ExecutionLine(functionName, params));
  }
}
