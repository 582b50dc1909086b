/**
 * The action registry `FUNCTION_METADATA`: a Python dict from action name to a record with a
 * `"description"` and, for some actions, a `"params"` list. Python dicts keep insertion order,
 * and the core depends on it (`list(FUNCTION_METADATA.keys())` fixes the keyword-scan order), so
 * the registry is the ordered key list together with the map.
 */
module Metadata {
  import opened Wrappers

  /** One registry record; `params` is `None` when the record has no `"params"` key. */
  datatype Descriptor = Descriptor(description: string, params: Option<seq<string>>)

  datatype Registry = Registry(names: seq<string>, entries: map<string, Descriptor>) {

    /** The key list has no repetition and holds exactly the keys of the map. */
    ghost predicate Valid()
    {
      (forall i, j :: 0 <= i < j < |names| ==> names[i] != names[j]) &&
      (forall n :: n in names <==> n in entries)
    }

    /** Storing a record under a name not yet present: the key goes to the end of the order. */
    function Insert(name: string, d: Descriptor): (r: Registry)
      requires Valid() && name !in entries
      ensures r.Valid()
      ensures r.names == names + [name] && r.entries == entries[name := d]
    {
      Registry(names + [name], entries[name := d])
    }

    /** Setting the parameter list of a present name: the key keeps its place in the order. */
    function SetParams(name: string, ps: seq<string>): (r: Registry)
      requires Valid() && name in entries
      ensures r.Valid()
      ensures r.names == names
      ensures r.entries == entries[name := Descriptor(entries[name].description, Some(ps))]
    {
      Registry(names, entries[name := entries[name].(params := Some(ps))])
    }
  }

  /** The key order of the registry as the program starts. */
  const InitialNames: seq<string> :=
    ["open_chrome", "open_calculator", "open_notepad", "get_cpu_usage", "get_ram_usage",
     "run_shell_command", "create_text_file"]

  /** The registry as the program starts (automation_functions.py). */
  const Initial: Registry := Registry(
    InitialNames,
    map[
      "open_chrome" := Descriptor("Launches the Google Chrome web browser to a default page", None),
      "open_calculator" := Descriptor("Starts the system calculator application", None),
      "open_notepad" := Descriptor("Opens the Notepad text editor", None),
      "get_cpu_usage" := Descriptor("Measures and displays the current CPU utilization percentage", None),
      "get_ram_usage" := Descriptor("Measures and displays the current RAM utilization percentage", None),
      "run_shell_command" := Descriptor("Executes a specified command in the system shell and displays output", Some(["command"])),
      "create_text_file" := Descriptor("Generates a new text file with a given name", Some(["filename"]))
    ])

  lemma InitialNamesDistinct()
    ensures forall i, j :: 0 <= i < j < |InitialNames| ==> InitialNames[i] != InitialNames[j]
  {
  }

  lemma InitialKeys()
    ensures forall n :: n in InitialNames <==> n in Initial.entries
  {
  }

  lemma InitialValid()
    ensures Initial.Valid()
    ensures |Initial.names| == 7
  {
    InitialNamesDistinct();
    InitialKeys();
  }
}
