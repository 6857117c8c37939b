/** mergeSpecs (src/merger.ts:72-116): a single file is loaded and re-saved as YAML; several
    files are joined by the external tool into an intermediate JSON file, which is then
    loaded and re-saved as YAML. */
module MergeEngine {
  import opened Wrappers
  import opened Text
  import opened Errors
  import opened Effects

  /** `outputPath.replace(/\.ya?ml$/, '')`: one trailing `.yaml` or `.yml` removed, matched
      case-sensitively and only at the very end. */
  function StripYamlExtension(out: string): (r: string)
    ensures |r| <= |out| && r == out[..|r|]
    ensures EndsWith(out, ".yaml") ==> out[|r|..] == ".yaml"
    ensures !EndsWith(out, ".yaml") && EndsWith(out, ".yml") ==> out[|r|..] == ".yml"
    ensures !EndsWith(out, ".yaml") && !EndsWith(out, ".yml") ==> r == out
  {
    if EndsWith(out, ".yaml") then out[..|out| - 5]
    else if EndsWith(out, ".yml") then out[..|out| - 4]
    else out
  }

  /** The path of the intermediate JSON file (src/merger.ts:85). */
  function JsonPath(out: string): (j: string)
    ensures EndsWith(j, ".json")
  {
    StripYamlExtension(out) + ".json"
  }

  /** The three cases of the rewrite: `.yaml` and `.yml` are replaced by `.json`,
      any other name gets `.json` appended. */
  lemma JsonPathCases(base: string, out: string)
    ensures JsonPath(base + ".yaml") == base + ".json"
    ensures JsonPath(base + ".yml") == base + ".json"
    ensures !EndsWith(out, ".yaml") && !EndsWith(out, ".yml") ==> JsonPath(out) == out + ".json"
  {
    assert (base + ".yaml")[..|base + ".yaml"| - 5] == base;
    assert (base + ".yml")[|base + ".yml"| - 4..] == ".yml";
    assert (base + ".yml")[..|base + ".yml"| - 4] == base;
    var y := base + ".yml";
    assert y[|base|] == '.';
    assert |y| < 5 || y[|y| - 5..][1] == '.';
  }

  /** Concrete instances of the two rewritten extensions. */
  lemma JsonPathYamlExamples()
    ensures JsonPath("a.yaml") == "a.json"
    ensures JsonPath("a.yml") == "a.json"
  {
    assert "a.yaml" == "a" + ".yaml";
    assert "a.yml" == "a" + ".yml";
    JsonPathCases("a", "");
  }

  /** A `.json` output name is not rewritten: the intermediate file gets a second extension. */
  lemma JsonPathOfJsonOutput()
    ensures JsonPath("out.json") == "out.json.json"
  {
    NoYamlExtension("out.json");
  }

  /** The match is case-sensitive: an upper-case extension is kept. */
  lemma JsonPathIsCaseSensitive()
    ensures JsonPath("A.YAML") == "A.YAML.json"
  {
    NoYamlExtension("A.YAML");
  }

  /** Both extensions put 'y' or '.' four characters from the end; a name with neither
      there just gets `.json` appended. */
  lemma NoYamlExtension(out: string)
    requires |out| >= 4 && out[|out| - 4] != 'y' && out[|out| - 4] != '.'
    ensures JsonPath(out) == out + ".json"
  {
    assert !EndsWith(out, ".yaml") by {
      if |out| >= 5 {
        assert out[|out| - 5..][1] == out[|out| - 4];
        assert ".yaml"[1] == 'y';
      }
    }
    assert !EndsWith(out, ".yml") by {
      assert out[|out| - 4..][0] == out[|out| - 4];
      assert ".yml"[0] == '.';
    }
  }

  /** The intermediate file is never the output file, so the final save does not
      overwrite the joined JSON and the join does not write to the output path. */
  lemma JsonPathIsNotOutput(out: string)
    ensures JsonPath(out) != out
  {
    var j := JsonPath(out);
    if EndsWith(out, ".yaml") {
      var base := out[..|out| - 5];
      assert out == base + ".yaml";
      JsonPathCases(base, out);
      assert j[|base| + 1] == 'j' && out[|base| + 1] == 'y';
    } else if EndsWith(out, ".yml") {
      var base := out[..|out| - 4];
      assert out == base + ".yml";
      JsonPathCases(base, out);
      assert |j| == |out| + 1;
    } else {
      assert |j| == |out| + 5;
    }
  }

  const JoinPrefix := "npx @redocly/cli join "

  /** The command line of the join (src/merger.ts:91). */
  function Command(inputs: seq<string>, jsonPath: string): (c: string)
    ensures StartsWith(c, JoinPrefix)
    ensures EndsWith(c, " -o \"" + jsonPath + "\"")
    ensures |JoinPrefix| + |" -o \"" + jsonPath + "\""| <= |c|
    ensures c[|JoinPrefix|..|c| - |" -o \"" + jsonPath + "\""|] == JoinWith(inputs, ' ')
  {
    JoinPrefix + JoinWith(inputs, ' ') + " -o \"" + jsonPath + "\""
  }

  /** The command starts with the join invocation, ends with `-o "<jsonPath>"`, and between
      the two lists the input files in order: split at spaces they come back one by one
      when no file name holds a space. */
  lemma CommandListsFilesInOrder(inputs: seq<string>, jsonPath: string)
    ensures var c := Command(inputs, jsonPath);
            var suffix := " -o \"" + jsonPath + "\"";
            && StartsWith(c, JoinPrefix)
            && EndsWith(c, suffix)
            && |JoinPrefix| + |suffix| <= |c|
            && (|inputs| >= 1 && (forall k :: 0 <= k < |inputs| ==> ' ' !in inputs[k]) ==>
                  Split(c[|JoinPrefix|..|c| - |suffix|], ' ') == inputs)
  {
    var c := Command(inputs, jsonPath);
    var suffix := " -o \"" + jsonPath + "\"";
    var middle := JoinWith(inputs, ' ');
    assert c == JoinPrefix + middle + suffix;
    assert c[..|JoinPrefix|] == JoinPrefix;
    assert c[|c| - |suffix|..] == suffix;
    assert c[|JoinPrefix|..|c| - |suffix|] == middle;
    if |inputs| >= 1 && (forall k :: 0 <= k < |inputs| ==> ' ' !in inputs[k]) {
      SplitJoin(inputs, ' ');
    }
  }

  /** mergeSpecs as a function of the files before the call: what it returns or throws,
      and the files afterwards. */
  function MergeSpecsEffect(env: Env, files: Files, inputs: seq<string>, out: string): (r: Effect<()>)
    ensures r.outcome.Ok? ==> |inputs| >= 1 && out in r.files
    ensures r.outcome.Err? ==> !r.outcome.error.NoFilesFound? && !r.outcome.error.MergedSpecEmpty?
    ensures |inputs| >= 2 && r.outcome.Err? ==>
              r.outcome.error.MergeFailed? && r.outcome.error.command == Command(inputs, JsonPath(out))
  {
    if |inputs| == 0 then Effect(Err(NoFilesToMerge), files)
    else if |inputs| == 1 then
      match LoadSpec(files, env.codec, inputs[0])
      case Err(e) => Effect(Err(e), files)
      case Ok(spec) => Effect(Ok(()), Saved(files, env.codec, spec, out))
    else
      var jsonPath := JsonPath(out);
      var command := Command(inputs, jsonPath);
      var ran := env.exec(files, command);
      match ran.failure
      case Some(f) => Effect(Err(MergeFailed(command, f.message, f.stderr, f.stdout)), ran.after)
      case None =>
        match LoadSpec(ran.after, env.codec, jsonPath)
        case Err(e) => Effect(Err(MergeFailed(command, Message(e), "", "")), ran.after)
        case Ok(spec) => Effect(Ok(()), Saved(ran.after, env.codec, spec, out))
  }

  /** mergeSpecs. */
  method MergeSpecs(fs: FileSystem, env: Env, inputs: seq<string>, out: string) returns (outcome: Result<(), Error>)
    modifies fs
    ensures outcome == MergeSpecsEffect(env, old(fs.files), inputs, out).outcome
    ensures fs.files == MergeSpecsEffect(env, old(fs.files), inputs, out).files
  {
    if |inputs| == 0 {
      return Err(NoFilesToMerge);
    }
    if |inputs| == 1 {
      var loaded := LoadSpec(fs.files, env.codec, inputs[0]);
      if loaded.Err? {
        return Err(loaded.error);
      }
      SaveSpec(fs, env.codec, loaded.value, out);
      return Ok(());
    }
    var jsonPath := JsonPath(out);
    var command := Command(inputs, jsonPath);
    var failure := fs.ExecSync(env.exec, command);
    if failure.Some? {
      var f := failure.value;
      return Err(MergeFailed(command, f.message, f.stderr, f.stdout));
    }
    var loaded := LoadSpec(fs.files, env.codec, jsonPath);
    if loaded.Err? {
      return Err(MergeFailed(command, Message(loaded.error), "", ""));
    }
    SaveSpec(fs, env.codec, loaded.value, out);
    return Ok(());
  }

  /** An empty list is refused with "No files to merge" and touches nothing. */
  lemma MergeNothingFails(env: Env, files: Files, out: string)
    ensures MergeSpecsEffect(env, files, [], out) == Effect(Err(NoFilesToMerge), files)
    ensures Message(NoFilesToMerge) == "No files to merge"
  {
  }

  /** One file: the output is the loaded input saved as YAML. The join tool is not run
      (the result does not depend on it) and no file besides the output is written; loading
      the output gives the input spec exactly when the serialiser's text for it reads back. */
  lemma SingleFilePassThrough(env: Env, files: Files, input: string, out: string,
                              exec': (Files, string) -> ExecResult)
    ensures var r := MergeSpecsEffect(env, files, [input], out);
            && r == MergeSpecsEffect(env.(exec := exec'), files, [input], out)
            && r.files.Keys <= files.Keys + {out}
            && (LoadSpec(files, env.codec, input).Err? ==>
                  r == Effect(Err(LoadSpec(files, env.codec, input).error), files))
            && (LoadSpec(files, env.codec, input).Ok? ==>
                  r == Effect(Ok(()), Saved(files, env.codec, LoadSpec(files, env.codec, input).value, out)))
            && (LoadSpec(files, env.codec, input).Ok? ==>
                  ((LoadSpec(r.files, env.codec, out) == LoadSpec(files, env.codec, input))
                     <==> Reloads(env.codec, out, LoadSpec(files, env.codec, input).value)))
  {
  }

  /** Several files: every failure, of the join or of loading its JSON output, is one
      MergeFailed error naming the command, which ends with `-o "<jsonPath>"`. */
  lemma MultiFileFailureNamesCommand(env: Env, files: Files, inputs: seq<string>, out: string)
    requires |inputs| >= 2
    requires MergeSpecsEffect(env, files, inputs, out).outcome.Err?
    ensures var e := MergeSpecsEffect(env, files, inputs, out).outcome.error;
            && e.MergeFailed?
            && e.command == Command(inputs, JsonPath(out))
            && Contains(Message(e), e.command)
            && EndsWith(e.command, " -o \"" + JsonPath(out) + "\"")
  {
    var e := MergeSpecsEffect(env, files, inputs, out).outcome.error;
    MergeFailureMessageNamesCommand(e.command, e.cause, e.stderr, e.stdout);
    CommandListsFilesInOrder(inputs, JsonPath(out));
  }

  /** Several files: on success the join ran without failure, its JSON output loaded, the
      output file holds that spec saved as YAML, and the intermediate JSON file is kept.
      Loading the output gives the joined spec exactly when the serialiser's text for it
      reads back. */
  lemma MultiFileOutputIsJoinedSpec(env: Env, files: Files, inputs: seq<string>, out: string)
    requires |inputs| >= 2
    requires MergeSpecsEffect(env, files, inputs, out).outcome.Ok?
    ensures var jsonPath := JsonPath(out);
            var ran := env.exec(files, Command(inputs, jsonPath));
            var joined := LoadSpec(ran.after, env.codec, jsonPath);
            var r := MergeSpecsEffect(env, files, inputs, out);
            && ran.failure.None?
            && joined.Ok?
            && r.files == Saved(ran.after, env.codec, joined.value, out)
            && jsonPath in r.files && r.files[jsonPath] == ran.after[jsonPath]
            && (LoadSpec(r.files, env.codec, out) == joined <==> Reloads(env.codec, out, joined.value))
  {
    JsonPathIsNotOutput(out);
  }

  /** The errors mergeSpecs can end with, by number of inputs; it never reports that no
      files were found, and a single-file failure leaves the files as they were. */
  lemma MergeSpecsErrors(env: Env, files: Files, inputs: seq<string>, out: string)
    requires MergeSpecsEffect(env, files, inputs, out).outcome.Err?
    ensures var r := MergeSpecsEffect(env, files, inputs, out);
            && !r.outcome.error.NoFilesFound?
            && (|inputs| == 0 ==> r.outcome.error == NoFilesToMerge && r.files == files)
            && (|inputs| == 1 ==> (r.outcome.error.ReadFailed? || r.outcome.error.ParseFailed?) && r.files == files)
            && (|inputs| >= 2 ==> r.outcome.error.MergeFailed?)
  {
  }
}
