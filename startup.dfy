/** The launcher script: the command-line and environment flags, the
    merge of the environment into the user configuration file, the copy
    decision for the development `node_modules`, and the heartbeat's view
    of the child processes.  Files are objects whose contents the
    operations reassign; spawning, logging and timers are left out. */
module Startup {
  import opened Wrappers

  /** `process.env`: every variable that is set holds a string. */
  type Env = map<string, string>

  /** A value of the existing configuration file: a JSON string, or any
      other JSON value, kept by its serialised text (the merge only copies
      such values and compares the LLM field with strings). */
  datatype Json = JString(s: string) | JNonString(text: string)

  /** A parsed configuration object; a key that is absent is `undefined`. */
  type Config = map<string, Json>

  /** The fields of the configuration object the merge writes, in order. */
  const ConfigKeys: seq<string> := [
    "LLM", "OPENAI_API_KEY", "OPENAI_MODEL", "GOOGLE_API_KEY", "GOOGLE_MODEL",
    "OLLAMA_URL", "OLLAMA_MODEL", "ANTHROPIC_API_KEY", "ANTHROPIC_MODEL",
    "CUSTOM_LLM_URL", "CUSTOM_LLM_API_KEY", "CUSTOM_MODEL", "PEXELS_API_KEY",
    "PIXABAY_API_KEY", "IMAGE_PROVIDER", "TOOL_CALLS", "DISABLE_THINKING",
    "EXTENDED_REASONING", "WEB_GROUNDING", "USE_CUSTOM_URL"]

  /** The LLM values an existing file may keep. */
  const KnownLlms: seq<Json> := [JString("ollama"), JString("openai"), JString("google")]

  // ---------------------------------------------------------------------
  // Flags

  /** `isDev`: `--dev` or `-d` among the arguments after the interpreter
      and the script path. */
  function IsDev(argv: seq<string>): (r: bool)
    ensures r <==> exists i :: 2 <= i < |argv| && (argv[i] == "--dev" || argv[i] == "-d")
  {
    var args := if |argv| <= 2 then [] else argv[2..];
    assert forall i :: 2 <= i < |argv| ==> argv[i] == args[i - 2];
    "--dev" in args || "-d" in args
  }

  /** `canChangeKeys`: only the exact string "false" locks the keys. */
  function CanChangeKeys(env: Env): (r: bool)
    ensures !r <==> "CAN_CHANGE_KEYS" in env && env["CAN_CHANGE_KEYS"] == "false"
  {
    "CAN_CHANGE_KEYS" !in env || env["CAN_CHANGE_KEYS"] != "false"
  }

  /** An unset variable, an empty one and every spelling other than
      "false" leave the keys changeable. */
  lemma OnlyLiteralFalseLocksKeys(env: Env, v: string)
    requires v != "false"
    ensures CanChangeKeys(env - {"CAN_CHANGE_KEYS"})
    ensures CanChangeKeys(env["CAN_CHANGE_KEYS" := v])
    ensures !CanChangeKeys(env["CAN_CHANGE_KEYS" := "false"])
  {
  }

  // ---------------------------------------------------------------------
  // The configuration merge

  /** `process.env.K || existingConfig.K`: the variable when it is set and
      non-empty, otherwise the existing value, whatever it is. */
  function Field(env: Env, existing: Config, k: string): (r: Option<Json>)
    ensures k in env && env[k] != "" ==> r == Some(JString(env[k]))
    ensures (k !in env || env[k] == "") && k in existing ==> r == Some(existing[k])
    ensures r.None? <==> (k !in env || env[k] == "") && k !in existing
  {
    if k in env && env[k] != "" then Some(JString(env[k]))
    else if k in existing then Some(existing[k])
    else None
  }

  /** The existing file with an unknown LLM value reset to `undefined`. */
  function NormalizeLlm(existing: Config): (r: Config)
    ensures "LLM" in r ==> r["LLM"] in KnownLlms
    ensures "LLM" in r <==> "LLM" in existing && existing["LLM"] in KnownLlms
    ensures "LLM" in r ==> r["LLM"] == existing["LLM"]
    ensures forall k :: k != "LLM" ==> (k in r <==> k in existing)
    ensures forall k :: k != "LLM" && k in r ==> r[k] == existing[k]
  {
    if "LLM" in existing && existing["LLM"] in KnownLlms then existing
    else existing - {"LLM"}
  }

  /** The object literal `userConfig` after `JSON.stringify`, which drops
      the fields whose value is `undefined`. */
  function UserConfig(env: Env, existing: Config): (r: Config)
    ensures forall k :: k in r ==> k in ConfigKeys
    ensures forall k :: k in ConfigKeys ==> (k in r <==> Field(env, existing, k).Some?)
    ensures forall k :: k in r ==> Some(r[k]) == Field(env, existing, k)
  {
    map k | k in ConfigKeys && Field(env, existing, k).Some? :: Field(env, existing, k).value
  }

  /** The configuration file `setupUserConfigFromEnv` writes, given what
      the file held before (absent when there was no file). */
  function MergedConfig(env: Env, file: Option<Config>): (r: Config)
    // only the fixed fields are written
    ensures forall k :: k in r ==> k in ConfigKeys
    // a non-empty variable always wins
    ensures forall k :: k in ConfigKeys && k in env && env[k] != "" ==> k in r && r[k] == JString(env[k])
    // the LLM written is the variable or one of the known providers
    ensures "LLM" in r ==> r["LLM"] in KnownLlms || ("LLM" in env && env["LLM"] != "" && r["LLM"] == JString(env["LLM"]))
  {
    UserConfig(env, NormalizeLlm(file.GetOr(map[])))
  }

  /** Keys of the existing file outside the fixed list are not written back. */
  lemma OtherKeysAreDropped(env: Env, file: Option<Config>, k: string)
    requires k !in ConfigKeys
    ensures k !in MergedConfig(env, file)
  {
  }

  /** An empty variable does not erase a stored value; it falls back to it. */
  lemma EmptyVariableKeepsStoredValue(env: Env, stored: Config, k: string)
    requires k in ConfigKeys && k != "LLM" && k in stored
    requires k !in env || env[k] == ""
    ensures k in MergedConfig(env, Some(stored)) && MergedConfig(env, Some(stored))[k] == stored[k]
  {
  }

  /** The LLM field written is the variable when set, otherwise a known
      stored value, otherwise nothing. */
  lemma WrittenLlm(env: Env, file: Option<Config>)
    ensures var r := MergedConfig(env, file);
      && ("LLM" in env && env["LLM"] != "" ==> "LLM" in r && r["LLM"] == JString(env["LLM"]))
      && (("LLM" !in env || env["LLM"] == "") ==>
            ("LLM" in r <==> file.Some? && "LLM" in file.value && file.value["LLM"] in KnownLlms))
  {
    assert "LLM" in ConfigKeys;
  }

  /** Running the merge again with the same environment over the file it
      wrote leaves the file as it is. */
  lemma MergeIsIdempotent(env: Env, file: Option<Config>)
    ensures MergedConfig(env, Some(MergedConfig(env, file))) == MergedConfig(env, file)
  {
    var once := MergedConfig(env, file);
    var twice := MergedConfig(env, Some(once));
    var base := NormalizeLlm(file.GetOr(map[]));
    var again := NormalizeLlm(once);
    forall k | k in ConfigKeys
      ensures Field(env, again, k) == Field(env, base, k)
    {
      if k == "LLM" && (k !in env || env[k] == "") && k in once {
        assert once[k] == base[k];
      }
    }
    assert twice.Keys == once.Keys;
  }

  /** The user configuration file; `contents` is absent while it does not exist. */
  class UserConfigFile {
    var contents: Option<Config>

    constructor (contents: Option<Config>)
      ensures this.contents == contents
    {
      this.contents := contents;
    }

    /** `setupUserConfigFromEnv`: read the file (an empty object when it
        does not exist), forget an unknown LLM, merge and write back. */
    method SetupUserConfigFromEnv(env: Env)
      modifies this
      ensures contents == Some(MergedConfig(env, old(contents)))
    {
      var existingConfig: Config := map[];
      if contents.Some? {
        existingConfig := contents.value;
      }
      if !("LLM" in existingConfig && existingConfig["LLM"] in KnownLlms) {
        existingConfig := existingConfig - {"LLM"};
      }
      contents := Some(UserConfig(env, existingConfig));
    }
  }

  // ---------------------------------------------------------------------
  // node_modules for development

  /** The Next.js `node_modules` directory: absent, or present with its
      entries, or present but not listable. */
  datatype Target = Absent | Listed(entries: seq<string>) | Unreadable

  /** What `setupNodeModules` did. */
  datatype NodeModulesStep = NoDependencies | Initialized | Populated | AlreadyPresent | CouldNotInspect

  predicate Copied(s: NodeModulesStep) {
    s == Initialized || s == Populated
  }

  /** The copy decision: the dependency tree exists and the target is
      absent or listed empty; a target that cannot be read is left alone. */
  predicate ShouldCopy(dependencies: Option<seq<string>>, target: Target) {
    dependencies.Some? && (target == Absent || target == Listed([]))
  }

  class NodeModules {
    var target: Target

    constructor (target: Target)
      ensures this.target == target
    {
      this.target := target;
    }

    /** `setupNodeModules`; `dependencies` lists the tree shipped with the
        image, absent when it does not exist. */
    method SetupNodeModules(dependencies: Option<seq<string>>) returns (step: NodeModulesStep)
      modifies this
      ensures Copied(step) <==> ShouldCopy(dependencies, old(target))
      ensures Copied(step) ==> target == Listed(dependencies.value)
      ensures !Copied(step) ==> target == old(target)
      ensures dependencies.None? ==> step == NoDependencies
      ensures old(target) == Unreadable && dependencies.Some? ==> step == CouldNotInspect
      ensures step == AlreadyPresent <==> dependencies.Some? && old(target).Listed? && |old(target).entries| > 0
    {
      if dependencies.None? {
        return NoDependencies;
      }
      if target == Absent {
        target := Listed(dependencies.value);
        return Initialized;
      }
      match target
      case Unreadable =>
        step := CouldNotInspect;
      case Listed(entries) =>
        if |entries| == 0 {
          target := Listed(dependencies.value);
          step := Populated;
        } else {
          step := AlreadyPresent;
        }
    }
  }

  // ---------------------------------------------------------------------
  // Heartbeat

  /** What the heartbeat reads of a child process. */
  datatype ChildProcess = ChildProcess(name: string, killed: bool, exitCode: Option<int>)

  predicate IsRunning(p: ChildProcess) {
    !p.killed && p.exitCode.None?
  }

  /** `processes.filter(p => !p.process.killed && p.process.exitCode === null)` */
  function RunningProcesses(processes: seq<ChildProcess>): (r: seq<ChildProcess>)
    ensures |r| <= |processes|
    ensures forall p :: p in r <==> p in processes && IsRunning(p)
  {
    if |processes| == 0 then []
    else (if IsRunning(processes[0]) then [processes[0]] else []) + RunningProcesses(processes[1..])
  }

  /** Each running process occurs in the filtered list as often as in the
      list itself, and the others never occur. */
  lemma {:induction false} RunningProcessesKeepsMultiplicity(processes: seq<ChildProcess>)
    ensures forall p :: multiset(RunningProcesses(processes))[p] ==
                        if IsRunning(p) then multiset(processes)[p] else 0
  {
    if |processes| > 0 {
      RunningProcessesKeepsMultiplicity(processes[1..]);
      assert processes == [processes[0]] + processes[1..];
    }
  }

  /** The filter keeps list order: filtering a concatenation concatenates
      the filtered parts. */
  lemma {:induction false} RunningProcessesOfAppend(a: seq<ChildProcess>, b: seq<ChildProcess>)
    ensures RunningProcesses(a + b) == RunningProcesses(a) + RunningProcesses(b)
  {
    if |a| > 0 {
      var head := if IsRunning(a[0]) then [a[0]] else [];
      assert (a + b)[0] == a[0];
      assert (a + b)[1..] == a[1..] + b;
      assert RunningProcesses(a + b) == head + RunningProcesses(a[1..] + b);
      RunningProcessesOfAppend(a[1..], b);
      assert RunningProcesses(a) == head + RunningProcesses(a[1..]);
    } else {
      assert a + b == b;
    }
  }

  /** One heartbeat: the names of the running processes, how many were
      inspected, and whether the interval is cleared. */
  datatype Beat = Beat(running: seq<string>, total: nat, clearInterval: bool)

  function Names(processes: seq<ChildProcess>): (r: seq<string>)
    ensures |r| == |processes|
    ensures forall i :: 0 <= i < |r| ==> r[i] == processes[i].name
  {
    if |processes| == 0 then [] else [processes[0].name] + Names(processes[1..])
  }

  function Heartbeat(processes: seq<ChildProcess>): (b: Beat)
    ensures b.total == |processes|
    ensures |b.running| == |RunningProcesses(processes)| <= b.total
    ensures b.clearInterval <==> forall p :: p in processes ==> !IsRunning(p)
  {
    var running := RunningProcesses(processes);
    assert |running| == 0 <==> forall p :: p in processes ==> !IsRunning(p) by {
      if |running| > 0 {
        assert running[0] in running;
      }
    }
    Beat(Names(running), |processes|, |running| == 0)
  }

  /** A heartbeat names every process that has neither been killed nor
      exited, and names no other. */
  lemma HeartbeatNamesRunningProcesses(processes: seq<ChildProcess>)
    ensures forall p :: p in processes && IsRunning(p) ==> p.name in Heartbeat(processes).running
    ensures forall i :: 0 <= i < |Heartbeat(processes).running| ==>
      exists p :: p in processes && IsRunning(p) && p.name == Heartbeat(processes).running[i]
  {
    var r := RunningProcesses(processes);
    forall p | p in processes && IsRunning(p)
      ensures p.name in Heartbeat(processes).running
    {
      assert p in r;
      var i :| 0 <= i < |r| && r[i] == p;
      assert Names(r)[i] == p.name;
    }
    forall i | 0 <= i < |Heartbeat(processes).running|
      ensures exists p :: p in processes && IsRunning(p) && p.name == Heartbeat(processes).running[i]
    {
      assert r[i] in r;
    }
  }

  // ---------------------------------------------------------------------
  // Start-up order

  /** The module-level statements: in development the `node_modules` set-up,
      then the configuration merge when keys may be changed. */
  method Start(argv: seq<string>, env: Env, dependencies: Option<seq<string>>,
               nodeModules: NodeModules, config: UserConfigFile) returns (step: Option<NodeModulesStep>)
    modifies nodeModules, config
    ensures step.Some? <==> IsDev(argv)
    ensures !IsDev(argv) ==> nodeModules.target == old(nodeModules.target)
    ensures IsDev(argv) ==>
      && (Copied(step.value) <==> ShouldCopy(dependencies, old(nodeModules.target)))
      && (Copied(step.value) ==> nodeModules.target == Listed(dependencies.value))
      && (!Copied(step.value) ==> nodeModules.target == old(nodeModules.target))
      && (dependencies.None? ==> step.value == NoDependencies)
    ensures CanChangeKeys(env) ==> config.contents == Some(MergedConfig(env, old(config.contents)))
    ensures !CanChangeKeys(env) ==> config.contents == old(config.contents)
  {
    step := None;
    if IsDev(argv) {
      var s := nodeModules.SetupNodeModules(dependencies);
      step := Some(s);
    }
    if CanChangeKeys(env) {
      config.SetupUserConfigFromEnv(env);
    }
  }
}
