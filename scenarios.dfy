/**
 * The three generated scripts checked into the repository, as exact outputs of `GenerateCode`.
 * Each file is transcribed line by line; the action's name, its call statement and the `{e}`
 * of the error handler are written as pieces of their own.
 */
module Scenarios {
  import opened Wrappers
  import opened CodeGenerator

  /** test_open_calculator.py, line by line. */
  const OpenCalculatorScript: seq<string> := [
    "from automation_functions import " + "open_calculator" + "\n",
    "def main():\n",
    "    try:\n",
    "        " + "open_calculator()" + "\n",
    "        print(\"" + "open_calculator" + " executed successfully.\")\n",
    "    except Exception as e:\n",
    "        print(f\"Error executing function: " + "{e}" + "\")\n",
    "\n",
    "if __name__ == \"__main__\":\n",
    "    main()\n"
  ]

  /** test_create_text_file.py, line by line. */
  const CreateTextFileScript: seq<string> := [
    "from automation_functions import " + "create_text_file" + "\n",
    "def main():\n",
    "    try:\n",
    "        " + "create_text_file('example.txt')" + "\n",
    "        print(\"" + "create_text_file" + " executed successfully.\")\n",
    "    except Exception as e:\n",
    "        print(f\"Error executing function: " + "{e}" + "\")\n",
    "\n",
    "if __name__ == \"__main__\":\n",
    "    main()\n"
  ]

  /** test_run_shell_command.py, line by line. */
  const RunShellCommandScript: seq<string> := [
    "from automation_functions import " + "run_shell_command" + "\n",
    "def main():\n",
    "    try:\n",
    "        " + "run_shell_command('dir')" + "\n",
    "        print(\"" + "run_shell_command" + " executed successfully.\")\n",
    "    except Exception as e:\n",
    "        print(f\"Error executing function: " + "{e}" + "\")\n",
    "\n",
    "if __name__ == \"__main__\":\n",
    "    main()\n"
  ]

  /** `generate_code("open_calculator")` reproduces `OpenCalculatorScript` exactly. */
  lemma GeneratedOpenCalculator()
    ensures GenerateCode("open_calculator", None) == Concat(OpenCalculatorScript)
  {
    assert ExecutionLine("open_calculator", None) == "open_calculator()";
    var lines := ScriptLines("open_calculator", ExecutionLine("open_calculator", None));
    assert forall i | 0 <= i < 10 :: lines[i] == OpenCalculatorScript[i];
    assert lines == OpenCalculatorScript;
  }

  /** The call statement with its one quoted argument. */
  lemma CreateTextFileCall()
    ensures ExecutionLine("create_text_file", Some(["example.txt"])) == "create_text_file('example.txt')"
  {
    assert ExecutionLine("create_text_file", Some(["example.txt"])) == "create_text_file" + "('" + "example.txt" + "')";
    assert "create_text_file" + "('" == "create_text_file('";
    assert "create_text_file('" + "example.txt" == "create_text_file('example.txt";
  }

  /** `generate_code("create_text_file", ["example.txt"])` reproduces `CreateTextFileScript` exactly. */
  lemma GeneratedCreateTextFile()
    ensures GenerateCode("create_text_file", Some(["example.txt"])) == Concat(CreateTextFileScript)
  {
    CreateTextFileCall();
    var lines := ScriptLines("create_text_file", ExecutionLine("create_text_file", Some(["example.txt"])));
    assert forall i | 0 <= i < 10 :: lines[i] == CreateTextFileScript[i];
    assert lines == CreateTextFileScript;
  }

  /** The call statement with its one quoted argument. */
  lemma RunShellCommandCall()
    ensures ExecutionLine("run_shell_command", Some(["dir"])) == "run_shell_command('dir')"
  {
    assert ExecutionLine("run_shell_command", Some(["dir"])) == "run_shell_command" + "('" + "dir" + "')";
    assert "run_shell_command" + "('" == "run_shell_command('";
    assert "run_shell_command('" + "dir" == "run_shell_command('dir";
  }

  /** `generate_code("run_shell_command", ["dir"])` reproduces `RunShellCommandScript` exactly. */
  lemma GeneratedRunShellCommand()
    ensures GenerateCode("run_shell_command", Some(["dir"])) == Concat(RunShellCommandScript)
  {
    RunShellCommandCall();
    var lines := ScriptLines("run_shell_command", ExecutionLine("run_shell_command", Some(["dir"])));
    assert forall i | 0 <= i < 10 :: lines[i] == RunShellCommandScript[i];
    assert lines == RunShellCommandScript;
  }
}
