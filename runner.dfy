/** The `data` dictionary Unmanic hands to a plugin's `on_worker_process`
    runner, which the plugin updates in place. */
module Runner {

  import opened Common

  /** The Python values the runner dictionary holds. */
  datatype Value = Null | Bool(b: bool) | Str(s: string) | List(items: seq<string>)

  /** Python truthiness of a value. */
  predicate Truthy(v: Value) {
    match v
    case Null => false
    case Bool(b) => b
    case Str(s) => s != ""
    case List(items) => items != []
  }

  /** `entries.get(key, default)` */
  function Get(entries: map<string, Value>, key: string, default: Value): Value {
    if key in entries then entries[key] else default
  }

  /** A key read as a path is text whenever it is truthy. */
  predicate TextWhenTruthy(entries: map<string, Value>, key: string) {
    key in entries && Truthy(entries[key]) ==> entries[key].Str?
  }

  /** A key read as a command argument is text when present. */
  predicate TextWhenPresent(entries: map<string, Value>, key: string) {
    key in entries ==> entries[key].Str?
  }

  /** `entries.get(key)` where the caller continues only if it is truthy:
      the text when it is, None otherwise. */
  function TruthyText(entries: map<string, Value>, key: string): (r: Option<string>)
    requires TextWhenTruthy(entries, key)
    ensures r.Some? <==> key in entries && Truthy(entries[key])
    ensures r.Some? ==> r.value != "" && entries[key] == Str(r.value)
  {
    if key in entries && Truthy(entries[key]) then Some(entries[key].s) else None
  }

  /** `entries.get(key, default)` for a key whose value, when present, is text. */
  function TextOr(entries: map<string, Value>, key: string, default: string): (r: string)
    requires TextWhenPresent(entries, key)
    ensures key in entries ==> entries[key] == Str(r)
    ensures key !in entries ==> r == default
  {
    if key in entries then entries[key].s else default
  }

  /** 'worker_log', when present, is a list the plugin can append to. */
  predicate LogIsList(entries: map<string, Value>) {
    "worker_log" in entries ==> entries["worker_log"].List?
  }

  /** `data['worker_log'].append(line)` for each line, when the log is there. */
  function AppendLog(entries: map<string, Value>, lines: seq<string>): map<string, Value>
    requires LogIsList(entries)
  {
    if "worker_log" in entries then
      entries["worker_log" := List(entries["worker_log"].items + lines)]
    else entries
  }

  /** A runner's result: `data['exec_command'] = cmd`, then its log lines. */
  function Recorded(entries: map<string, Value>, cmd: seq<string>, lines: seq<string>): map<string, Value>
    requires LogIsList(entries)
  {
    AppendLog(entries["exec_command" := List(cmd)], lines)
  }

  /** Recording sets 'exec_command' to the command, extends an existing
      worker log by exactly the lines, and leaves every other key as it was. */
  lemma RecordedEntries(entries: map<string, Value>, cmd: seq<string>, lines: seq<string>)
    requires LogIsList(entries)
    ensures var r := Recorded(entries, cmd, lines);
      && r.Keys == entries.Keys + {"exec_command"}
      && r["exec_command"] == List(cmd)
      && (forall k :: k in entries && k !in {"exec_command", "worker_log"} ==> r[k] == entries[k])
      && ("worker_log" in entries <==> "worker_log" in r)
      && ("worker_log" in entries ==> r["worker_log"] == List(entries["worker_log"].items + lines))
  {
    var withCommand := entries["exec_command" := List(cmd)];
    if "worker_log" in entries {
      assert withCommand["worker_log"] == entries["worker_log"];
    }
  }

  /** The runner dictionary, shared with the host and updated in place. */
  class RunnerData {
    var entries: map<string, Value>

    constructor (entries: map<string, Value>)
      ensures this.entries == entries
    {
      this.entries := entries;
    }
  }
}
