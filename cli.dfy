/**
 * The command-line entry point (main.py): loading the `.env` file into the
 * process environment, and assembling the per-node generation-service
 * overrides and the workflow options handed to the pipeline.
 *
 * The process environment is an `Environment` object whose variables the
 * loader updates in place; the `.env` file is its lines, or nothing when it
 * does not exist. Command-line parsing is not modelled: the parsed flags are
 * parameters.
 */
module Cli {
  import opened Text
  import opened PipelineState
  import Deepwiki

  // ---------------------------------------------------------------------
  // `load_env_file`

  /**
   * What one line of the `.env` file sets: nothing for a blank line, a
   * comment or a line without '='; otherwise the stripped line split at its
   * first '=', so the key holds no '=' and the value may.
   */
  function Assignment(line: string): (r: Option<(string, string)>)
    ensures r.Some? <==> Strip(line) != "" && Strip(line)[0] != '#' && '=' in Strip(line)
    ensures r.Some? ==> Strip(line) == r.value.0 + "=" + r.value.1 && '=' !in r.value.0
  {
    var t := Strip(line);
    if t != "" && t[0] != '#' && '=' in t then
      var i := IndexOf(t, '=');
      assert t == t[..i] + "=" + t[i + 1..];
      Some((t[..i], t[i + 1..]))
    else None
  }

  /** Whether `os.environ[key] = value` is accepted: a key that is not empty and no NUL character in either. */
  predicate Settable(key: string, value: string)
  {
    key != "" && '\0' !in key && '\0' !in value
  }

  /**
   * The variables after the lines, applied in order, and whether every line
   * was applied: a line whose key cannot be set raises, and the lines after
   * it are not read.
   */
  function LoadLines(vars: map<string, string>, lines: seq<string>): (map<string, string>, bool)
    decreases |lines|
  {
    if |lines| == 0 then (vars, true)
    else match Assignment(lines[0])
      case None => LoadLines(vars, lines[1..])
      case Some(kv) => if Settable(kv.0, kv.1) then LoadLines(vars[kv.0 := kv.1], lines[1..]) else (vars, false)
  }

  /** Loading a file in two parts is loading the first part, then (when it went through) the second. */
  lemma {:induction false} LoadLinesAppend(vars: map<string, string>, a: seq<string>, b: seq<string>)
    ensures LoadLines(vars, a + b) ==
              if LoadLines(vars, a).1 then LoadLines(LoadLines(vars, a).0, b) else LoadLines(vars, a)
    decreases |a|
  {
    if |a| > 0 {
      assert (a + b)[0] == a[0] && (a + b)[1..] == a[1..] + b;
      match Assignment(a[0])
      case None => LoadLinesAppend(vars, a[1..], b);
      case Some(kv) =>
        if Settable(kv.0, kv.1) {
          LoadLinesAppend(vars[kv.0 := kv.1], a[1..], b);
        }
    } else {
      assert a + b == b;
    }
  }

  /** Blank lines, comments and lines without '=' change nothing. */
  lemma {:induction false} SkippedLinesChangeNothing(vars: map<string, string>, lines: seq<string>)
    requires forall i :: 0 <= i < |lines| ==> Assignment(lines[i]).None?
    ensures LoadLines(vars, lines) == (vars, true)
  {
    if |lines| > 0 {
      SkippedLinesChangeNothing(vars, lines[1..]);
    }
  }

  /** Whether a line sets `key`. */
  predicate Sets(line: string, key: string)
  {
    Assignment(line).Some? && Assignment(line).value.0 == key
  }

  /** When every line went through, a key no line sets keeps what it had. */
  lemma {:induction false} UnsetKeyKept(vars: map<string, string>, lines: seq<string>, key: string)
    requires LoadLines(vars, lines).1
    requires forall i :: 0 <= i < |lines| ==> !Sets(lines[i], key)
    ensures key in LoadLines(vars, lines).0 <==> key in vars
    ensures key in vars ==> LoadLines(vars, lines).0[key] == vars[key]
    decreases |lines|
  {
    if |lines| > 0 {
      assert !Sets(lines[0], key);
      assert forall i :: 0 <= i < |lines[1..]| ==> lines[1..][i] == lines[i + 1];
      match Assignment(lines[0])
      case None => UnsetKeyKept(vars, lines[1..], key);
      case Some(kv) => UnsetKeyKept(vars[kv.0 := kv.1], lines[1..], key);
    }
  }

  /** When every line went through, a key holds the value of the last line that sets it. */
  lemma {:induction false} LastAssignmentWins(vars: map<string, string>, lines: seq<string>, key: string, i: nat)
    requires LoadLines(vars, lines).1
    requires i < |lines| && Sets(lines[i], key)
    requires forall j :: i < j < |lines| ==> !Sets(lines[j], key)
    ensures key in LoadLines(vars, lines).0 && LoadLines(vars, lines).0[key] == Assignment(lines[i]).value.1
    decreases |lines|
  {
    hide Strip, IndexOf;
    assert forall j :: 0 <= j < |lines[1..]| ==> lines[1..][j] == lines[j + 1];
    match Assignment(lines[0])
    case None =>
      LastAssignmentWins(vars, lines[1..], key, i - 1);
    case Some(kv) =>
      if i == 0 {
        UnsetKeyKept(vars[kv.0 := kv.1], lines[1..], key);
      } else {
        LastAssignmentWins(vars[kv.0 := kv.1], lines[1..], key, i - 1);
      }
  }

  /** The process environment. */
  class Environment {
    var vars: map<string, string>

    constructor(initial: map<string, string>)
      ensures vars == initial
    {
      vars := initial;
    }

    /**
     * `load_env_file`: with no `.env` file nothing changes; otherwise its
     * lines are applied in order, stopping at a line whose key cannot be set.
     */
    method LoadEnvFile(file: Option<seq<string>>) returns (ok: bool)
      modifies this
      ensures file.None? ==> vars == old(vars) && ok
      ensures file.Some? ==> (vars, ok) == LoadLines(old(vars), file.value)
    {
      if file.None? {
        return true;
      }
      var lines := file.value;
      var i := 0;
      while i < |lines|
        invariant 0 <= i <= |lines|
        invariant LoadLines(old(vars), lines) == LoadLines(vars, lines[i..])
      {
        assert lines[i..][0] == lines[i] && lines[i..][1..] == lines[i + 1..];
        var line := Strip(lines[i]);
        if line != "" && line[0] != '#' && '=' in line {
          var j := IndexOf(line, '=');
          var key, value := line[..j], line[j + 1..];
          if !Settable(key, value) {
            return false;
          }
          vars := vars[key := value];
        }
        i := i + 1;
      }
      return true;
    }
  }

  // ---------------------------------------------------------------------
  // The per-node overrides and the workflow options (`main`)

  /** The nodes whose generation service can be overridden, in order. */
  const OverrideNodes: seq<string> := ["analysis", "generate", "review", "finalize"]

  /** The `--<node>-provider` and `--<node>-model` flags of one node. */
  datatype NodeFlags = NodeFlags(provider: Option<string>, model: Option<string>)

  /** The entry for one node: the given (non-empty) provider and model, under "provider" and "model". */
  function OverrideEntry(f: NodeFlags): (e: map<string, string>)
    ensures e.Keys <= {"provider", "model"}
    ensures "provider" in e <==> Truthy(f.provider)
    ensures "model" in e <==> Truthy(f.model)
    ensures "provider" in e ==> e["provider"] == f.provider.value
    ensures "model" in e ==> e["model"] == f.model.value
  {
    var p := if Truthy(f.provider) then map["provider" := f.provider.value] else map[];
    if Truthy(f.model) then p["model" := f.model.value] else p
  }

  /** `llm_overrides` after the nodes in `nodes`. */
  function Overrides(flags: string -> NodeFlags, nodes: seq<string>): map<string, map<string, string>>
  {
    if |nodes| == 0 then map[]
    else
      var before := Overrides(flags, nodes[..|nodes| - 1]);
      var f := flags(nodes[|nodes| - 1]);
      if Truthy(f.provider) || Truthy(f.model) then before[nodes[|nodes| - 1] := OverrideEntry(f)] else before
  }

  /** A node has an entry exactly when one of its flags was given, and the entry holds exactly what was given. */
  lemma {:induction false} OverridesExactly(flags: string -> NodeFlags, nodes: seq<string>)
    ensures forall n :: n in Overrides(flags, nodes) <==> n in nodes && (Truthy(flags(n).provider) || Truthy(flags(n).model))
    ensures forall n :: n in Overrides(flags, nodes) ==> Overrides(flags, nodes)[n] == OverrideEntry(flags(n))
  {
    if |nodes| > 0 {
      var init := nodes[..|nodes| - 1];
      OverridesExactly(flags, init);
      assert nodes == init + [nodes[|nodes| - 1]];
    }
  }

  /** The assembly loop of `main`. */
  method BuildOverrides(flags: string -> NodeFlags) returns (overrides: map<string, map<string, string>>)
    ensures overrides == Overrides(flags, OverrideNodes)
  {
    overrides := map[];
    var i := 0;
    while i < |OverrideNodes|
      invariant 0 <= i <= |OverrideNodes|
      invariant overrides == Overrides(flags, OverrideNodes[..i])
    {
      var node := OverrideNodes[i];
      assert OverrideNodes[..i + 1][..i] == OverrideNodes[..i];
      var f := flags(node);
      if Truthy(f.provider) || Truthy(f.model) {
        var entry: map<string, string> := map[];
        if Truthy(f.provider) {
          entry := entry["provider" := f.provider.value];
        }
        if Truthy(f.model) {
          entry := entry["model" := f.model.value];
        }
        overrides := overrides[node := entry];
      }
      i := i + 1;
    }
    assert OverrideNodes[..i] == OverrideNodes;
  }

  /** `workflow_options`: the DeepWiki model, and the overrides only when there are any. */
  datatype WorkflowOptions = WorkflowOptions(deepwikiModel: string, llmOverrides: Option<map<string, map<string, string>>>)

  function BuildWorkflowOptions(deepwikiModel: string, overrides: map<string, map<string, string>>): (o: WorkflowOptions)
    ensures o.deepwikiModel == deepwikiModel
    ensures o.llmOverrides.Some? <==> overrides != map[]
    ensures o.llmOverrides.Some? ==> o.llmOverrides.value == overrides
  {
    WorkflowOptions(deepwikiModel, if overrides != map[] then Some(overrides) else None)
  }

  /** The options as the pipeline reads them: a missing `llm_overrides` reads as no overrides. */
  function AsPipelineOptions(o: WorkflowOptions): Options
  {
    Options(Some(o.deepwikiModel), if o.llmOverrides.Some? then o.llmOverrides.value else map[])
  }

  /** `--deepwiki-model`, or the provider's default model from the environment. */
  function DeepwikiModelArgument(given: Option<string>, env: map<string, string>): string
  {
    if given.Some? then given.value else Deepwiki.DefaultModel(env)
  }

  /** The options `main` hands to the workflow, for the environment after loading `.env`. */
  function MainOptions(env: map<string, string>, deepwikiFlag: Option<string>, flags: string -> NodeFlags): WorkflowOptions
  {
    BuildWorkflowOptions(DeepwikiModelArgument(deepwikiFlag, env), Overrides(flags, OverrideNodes))
  }

  /**
   * Leaving out empty overrides loses nothing: the pipeline sees the
   * DeepWiki model and exactly the overrides given on the command line; and
   * without `--deepwiki-model` the model is the one `get_deepwiki_client`
   * would pick from the same environment.
   */
  lemma MainOptionsReachPipeline(env: map<string, string>, deepwikiFlag: Option<string>, flags: string -> NodeFlags,
                                 anthropicInstalled: bool)
    ensures var o := AsPipelineOptions(MainOptions(env, deepwikiFlag, flags));
            && o.deepwikiModel == Some(DeepwikiModelArgument(deepwikiFlag, env))
            && (forall n :: n in o.llmOverrides <==> n in OverrideNodes && (Truthy(flags(n).provider) || Truthy(flags(n).model)))
            && (forall n :: n in o.llmOverrides ==> o.llmOverrides[n] == OverrideEntry(flags(n)))
            && (deepwikiFlag.None? ==> o.deepwikiModel.value == Deepwiki.GetClient(None, None, env, anthropicInstalled).model)
  {
    OverridesExactly(flags, OverrideNodes);
  }
}
