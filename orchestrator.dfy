/** mergeOpenAPISpecs (src/merger.ts:122-159): resolve the patterns, count the paths of every
    input, merge, reload the output and count its paths. Every failure ends the run. */
module Orchestrator {
  import opened Wrappers
  import opened Errors
  import opened OpenApi
  import opened Effects
  import opened Resolver
  import opened MergeEngine

  /** `countPaths(await loadSpec(file))` for one input file. */
  function FileCount(files: Files, codec: Codec, path: string): (r: Result<nat, Error>)
    ensures r.Err? ==> r.error.ReadFailed? || r.error.ParseFailed? || r.error.CannotReadPaths?
  {
    match LoadSpec(files, codec, path)
    case Err(e) => Err(e)
    case Ok(spec) => CountPaths(spec)
  }

  /** The loop of src/merger.ts:134-138 over `paths`: the running total, or the first error. */
  function CountAll(files: Files, codec: Codec, paths: seq<string>): (r: Result<nat, Error>)
    ensures r.Err? ==> r.error.ReadFailed? || r.error.ParseFailed? || r.error.CannotReadPaths?
    decreases |paths|
  {
    if paths == [] then Ok(0)
    else
      match CountAll(files, codec, paths[..|paths| - 1])
      case Err(e) => Err(e)
      case Ok(total) =>
        match FileCount(files, codec, paths[|paths| - 1])
        case Err(e) => Err(e)
        case Ok(n) => Ok(total + n)
  }

  function Sum(xs: seq<nat>): nat {
    if xs == [] then 0 else xs[0] + Sum(xs[1..])
  }

  lemma {:induction false} SumSnoc(xs: seq<nat>, x: nat)
    ensures Sum(xs + [x]) == Sum(xs) + x
    decreases |xs|
  {
    if xs != [] {
      assert (xs + [x])[1..] == xs[1..] + [x];
      SumSnoc(xs[1..], x);
    }
  }

  /** When every input loads and counts, the total is the sum of the per-file counts, in order. */
  lemma {:induction false} CountAllIsSum(files: Files, codec: Codec, paths: seq<string>, counts: seq<nat>)
    requires |counts| == |paths|
    requires forall k :: 0 <= k < |paths| ==> FileCount(files, codec, paths[k]) == Ok(counts[k])
    ensures CountAll(files, codec, paths) == Ok(Sum(counts))
    decreases |paths|
  {
    if paths != [] {
      var n := |paths| - 1;
      CountAllIsSum(files, codec, paths[..n], counts[..n]);
      assert counts == counts[..n] + [counts[n]];
      SumSnoc(counts[..n], counts[n]);
    }
  }

  /** The total fails exactly with the error of the first input that does not load and count. */
  lemma {:induction false} CountAllFirstError(files: Files, codec: Codec, paths: seq<string>, k: nat, e: Error)
    requires k < |paths|
    requires forall j :: 0 <= j < k ==> FileCount(files, codec, paths[j]).Ok?
    requires FileCount(files, codec, paths[k]) == Err(e)
    ensures CountAll(files, codec, paths) == Err(e)
    decreases |paths|
  {
    var n := |paths| - 1;
    if k == n {
      CountAllOk(files, codec, paths[..n]);
    } else {
      CountAllFirstError(files, codec, paths[..n], k, e);
    }
  }

  lemma {:induction false} CountAllOk(files: Files, codec: Codec, paths: seq<string>)
    requires forall j :: 0 <= j < |paths| ==> FileCount(files, codec, paths[j]).Ok?
    ensures CountAll(files, codec, paths).Ok?
    decreases |paths|
  {
    if paths != [] {
      CountAllOk(files, codec, paths[..|paths| - 1]);
    }
  }

  /** A successful total means every file loaded and counted. */
  lemma {:induction false} CountAllOkEach(files: Files, codec: Codec, paths: seq<string>)
    requires CountAll(files, codec, paths).Ok?
    ensures forall k :: 0 <= k < |paths| ==> FileCount(files, codec, paths[k]).Ok?
    decreases |paths|
  {
    if paths != [] {
      var n := |paths| - 1;
      CountAllOkEach(files, codec, paths[..n]);
      forall k | 0 <= k < n
        ensures FileCount(files, codec, paths[k]).Ok?
      {
        assert paths[..n][k] == paths[k];
      }
    }
  }

  /** The per-file counts of `paths`, in order (a file that fails to count contributes 0). */
  function Counts(files: Files, codec: Codec, paths: seq<string>): (cs: seq<nat>)
    ensures |cs| == |paths|
    ensures forall k :: 0 <= k < |paths| && FileCount(files, codec, paths[k]).Ok? ==>
              cs[k] == FileCount(files, codec, paths[k]).value
  {
    seq(|paths|, k requires 0 <= k < |paths| =>
      if FileCount(files, codec, paths[k]).Ok? then FileCount(files, codec, paths[k]).value else 0)
  }

  /** A successful total is the sum of the per-file counts, in order. */
  lemma CountAllSum(files: Files, codec: Codec, paths: seq<string>)
    requires CountAll(files, codec, paths).Ok?
    ensures forall k :: 0 <= k < |paths| ==> FileCount(files, codec, paths[k]).Ok?
    ensures CountAll(files, codec, paths).value == Sum(Counts(files, codec, paths))
  {
    CountAllOkEach(files, codec, paths);
    CountAllIsSum(files, codec, paths, Counts(files, codec, paths));
  }

  /** An error on a prefix is the error of the whole loop. */
  lemma {:induction false} CountAllErrorPersists(files: Files, codec: Codec, paths: seq<string>, k: nat)
    requires k <= |paths|
    requires CountAll(files, codec, paths[..k]).Err?
    ensures CountAll(files, codec, paths) == CountAll(files, codec, paths[..k])
    decreases |paths| - k
  {
    if k < |paths| {
      var n := |paths| - 1;
      assert paths[..n][..k] == paths[..k];
      CountAllErrorPersists(files, codec, paths[..n], k);
      assert paths[..k] == paths[..n] || k < n;
    } else {
      assert paths[..k] == paths;
    }
  }

  /** mergeOpenAPISpecs as a function of the files before the call. */
  function Run(env: Env, files: Files, inputPatterns: string, outputPath: string): (r: Effect<MergeResult>)
    ensures r.outcome.Err? && r.outcome.error.NoFilesFound? ==> r.files == files
    ensures r.outcome.Ok? ==>
              && outputPath in r.files
              && Truthy(r.outcome.value.spec)
              && CountPaths(r.outcome.value.spec) == Ok(r.outcome.value.pathCountAfter)
  {
    var found := Found(files, env.glob, inputPatterns);
    if |found| == 0 then Effect(Err(NoFilesFound(inputPatterns)), files)
    else
      match CountAll(files, env.codec, found)
      case Err(e) => Effect(Err(e), files)
      case Ok(before) => MergeAndReload(env, files, found, outputPath, before)
  }

  /** The steps after counting: merge, then reload and count the output. */
  function MergeAndReload(env: Env, files: Files, found: seq<string>, outputPath: string, before: nat): (r: Effect<MergeResult>)
    ensures r.outcome.Err? ==> !r.outcome.error.NoFilesFound?
    ensures r.outcome.Ok? ==>
              && LoadSpec(r.files, env.codec, outputPath) == Ok(r.outcome.value.spec)
              && Truthy(r.outcome.value.spec)
              && r.outcome.value.pathCountBefore == before
              && CountPaths(r.outcome.value.spec) == Ok(r.outcome.value.pathCountAfter)
  {
    var merged := MergeSpecsEffect(env, files, found, outputPath);
    match merged.outcome
    case Err(e) => Effect(Err(e), merged.files)
    case Ok(_) => Reload(env.codec, merged.files, outputPath, before)
  }

  /** Reloading the written output: a load error propagates, a falsy spec is an error. */
  function Reload(codec: Codec, files: Files, outputPath: string, before: nat): (r: Effect<MergeResult>)
    ensures r.files == files
  {
    match LoadSpec(files, codec, outputPath)
    case Err(e) => Effect(Err(e), files)
    case Ok(spec) =>
      if !Truthy(spec) then Effect(Err(MergedSpecEmpty(outputPath)), files)
      else Effect(Ok(MergeResult(spec, before, CountPaths(spec).value)), files)
  }

  /** mergeOpenAPISpecs. */
  method MergeOpenAPISpecs(fs: FileSystem, env: Env, inputPatterns: string, outputPath: string)
    returns (outcome: Result<MergeResult, Error>)
    modifies fs
    ensures outcome == Run(env, old(fs.files), inputPatterns, outputPath).outcome
    ensures fs.files == Run(env, old(fs.files), inputPatterns, outputPath).files
  {
    var files := FindFiles(fs, env.glob, inputPatterns);
    if |files| == 0 {
      return Err(NoFilesFound(inputPatterns));
    }
    var counted := CountPathsBefore(fs, env.codec, files);
    if counted.Err? {
      return Err(counted.error);
    }
    outcome := MergeThenReload(fs, env, files, outputPath, counted.value);
  }

  /** The counting loop of mergeOpenAPISpecs (src/merger.ts:134-138): load every file in
      order and add up its countPaths; the first load or count failure ends the loop. */
  method CountPathsBefore(fs: FileSystem, codec: Codec, files: seq<string>) returns (r: Result<nat, Error>)
    ensures r == CountAll(fs.files, codec, files)
  {
    var pathCountBefore: nat := 0;
    for k := 0 to |files|
      invariant CountAll(fs.files, codec, files[..k]) == Ok(pathCountBefore)
    {
      assert files[..k + 1][..k] == files[..k];
      var spec := LoadSpec(fs.files, codec, files[k]);
      if spec.Err? {
        CountAllErrorPersists(fs.files, codec, files, k + 1);
        return Err(spec.error);
      }
      var count := CountPaths(spec.value);
      if count.Err? {
        CountAllErrorPersists(fs.files, codec, files, k + 1);
        return Err(count.error);
      }
      pathCountBefore := pathCountBefore + count.value;
    }
    assert files[..|files|] == files;
    return Ok(pathCountBefore);
  }

  /** The part of mergeOpenAPISpecs after the counting loop. */
  method MergeThenReload(fs: FileSystem, env: Env, files: seq<string>, outputPath: string, pathCountBefore: nat)
    returns (outcome: Result<MergeResult, Error>)
    modifies fs
    ensures outcome == MergeAndReload(env, old(fs.files), files, outputPath, pathCountBefore).outcome
    ensures fs.files == MergeAndReload(env, old(fs.files), files, outputPath, pathCountBefore).files
  {
    var merged := MergeSpecs(fs, env, files, outputPath);
    if merged.Err? {
      return Err(merged.error);
    }

    var mergedSpec := LoadSpec(fs.files, env.codec, outputPath);
    if mergedSpec.Err? {
      return Err(mergedSpec.error);
    }
    if !Truthy(mergedSpec.value) {
      return Err(MergedSpecEmpty(outputPath));
    }
    var pathCountAfter := CountPaths(mergedSpec.value).value;
    return Ok(MergeResult(mergedSpec.value, pathCountBefore, pathCountAfter));
  }

  /** "No files found matching patterns: <input>" is reported exactly when no segment of the
      input names an existing regular file or matches anything, and then no file changes. */
  lemma NoFilesFoundExactlyWhenNothingMatches(env: Env, files: Files, inputPatterns: string, outputPath: string)
    ensures var r := Run(env, files, inputPatterns, outputPath);
            var segs := Segments(inputPatterns);
            (r.outcome == Err(NoFilesFound(inputPatterns))) <==>
              (forall k :: 0 <= k < |segs| ==> segs[k] !in files && env.glob(files, segs[k]) == [])
    ensures var r := Run(env, files, inputPatterns, outputPath);
            r.outcome == Err(NoFilesFound(inputPatterns)) ==> r.files == files
  {
    FoundEmpty(files, env.glob, inputPatterns);
  }

  /** On success, pathCountBefore is the per-file total over the resolved files, the spec is
      the reloaded output, it is truthy, and pathCountAfter is its countPaths. */
  lemma SuccessAccounting(env: Env, files: Files, inputPatterns: string, outputPath: string)
    requires Run(env, files, inputPatterns, outputPath).outcome.Ok?
    ensures var r := Run(env, files, inputPatterns, outputPath);
            var res := r.outcome.value;
            var found := Found(files, env.glob, inputPatterns);
            && |found| >= 1
            && CountAll(files, env.codec, found) == Ok(res.pathCountBefore)
            && MergeSpecsEffect(env, files, found, outputPath).outcome.Ok?
            && r.files == MergeSpecsEffect(env, files, found, outputPath).files
            && LoadSpec(r.files, env.codec, outputPath) == Ok(res.spec)
            && Truthy(res.spec)
            && CountPaths(res.spec) == Ok(res.pathCountAfter)
  {
  }

  /** On success, every resolved file loaded and counted, and pathCountBefore is the sum of
      their countPaths, file by file in resolution order. */
  lemma PathCountBeforeIsSum(env: Env, files: Files, inputPatterns: string, outputPath: string, res: MergeResult)
    requires Run(env, files, inputPatterns, outputPath).outcome == Ok(res)
    ensures var found := Found(files, env.glob, inputPatterns);
            && (forall k :: 0 <= k < |found| ==> FileCount(files, env.codec, found[k]).Ok?)
            && res.pathCountBefore == Sum(Counts(files, env.codec, found))
  {
    var found := Found(files, env.glob, inputPatterns);
    SuccessAccounting(env, files, inputPatterns, outputPath);
    CountAllSum(files, env.codec, found);
  }

  /** The empty-list refusal of mergeSpecs cannot surface from mergeOpenAPISpecs: the
      resolution guard stops an empty file list before the merge. */
  lemma RunNeverNoFilesToMerge(env: Env, files: Files, inputPatterns: string, outputPath: string)
    ensures Run(env, files, inputPatterns, outputPath).outcome != Err(NoFilesToMerge)
  {
    var found := Found(files, env.glob, inputPatterns);
    if |found| > 0 && CountAll(files, env.codec, found).Ok? {
      var merged := MergeSpecsEffect(env, files, found, outputPath);
      if merged.outcome.Err? {
        MergeSpecsErrors(env, files, found, outputPath);
      }
    }
  }

  /** Past a successful count, the run is the merge-and-reload stage. */
  lemma RunAfterCounting(env: Env, files: Files, inputPatterns: string, outputPath: string)
    requires var found := Found(files, env.glob, inputPatterns);
             |found| >= 1 && CountAll(files, env.codec, found).Ok?
    ensures var found := Found(files, env.glob, inputPatterns);
            Run(env, files, inputPatterns, outputPath)
              == MergeAndReload(env, files, found, outputPath, CountAll(files, env.codec, found).value)
  {
  }

  /** A merge whose output reloads as a falsy value (an empty document, null, false, 0 or
      the empty string) fails with "Failed to load merged spec from <outputPath>". */
  lemma FalsyOutputFails(env: Env, files: Files, inputPatterns: string, outputPath: string)
    requires var found := Found(files, env.glob, inputPatterns);
             var merged := MergeSpecsEffect(env, files, found, outputPath);
             && |found| >= 1
             && CountAll(files, env.codec, found).Ok?
             && merged.outcome.Ok?
             && LoadSpec(merged.files, env.codec, outputPath).Ok?
             && !Truthy(LoadSpec(merged.files, env.codec, outputPath).value)
    ensures Run(env, files, inputPatterns, outputPath).outcome == Err(MergedSpecEmpty(outputPath))
  {
    var found := Found(files, env.glob, inputPatterns);
    var before := CountAll(files, env.codec, found).value;
    RunAfterCounting(env, files, inputPatterns, outputPath);
    MergedThenReload(env, files, found, outputPath, before);
  }

  /** After a successful merge, the run's end is the reload of the output. */
  lemma MergedThenReload(env: Env, files: Files, found: seq<string>, outputPath: string, before: nat)
    requires MergeSpecsEffect(env, files, found, outputPath).outcome.Ok?
    ensures MergeAndReload(env, files, found, outputPath, before)
              == Reload(env.codec, MergeSpecsEffect(env, files, found, outputPath).files, outputPath, before)
  {
  }

  /** A failure while counting the inputs stops the run before anything is written. */
  lemma CountFailureWritesNothing(env: Env, files: Files, inputPatterns: string, outputPath: string, k: nat)
    requires var found := Found(files, env.glob, inputPatterns);
             && k < |found|
             && (forall j :: 0 <= j < k ==> FileCount(files, env.codec, found[j]).Ok?)
             && FileCount(files, env.codec, found[k]).Err?
    ensures var found := Found(files, env.glob, inputPatterns);
            Run(env, files, inputPatterns, outputPath) == Effect(Err(FileCount(files, env.codec, found[k]).error), files)
  {
    var found := Found(files, env.glob, inputPatterns);
    CountAllFirstError(files, env.codec, found, k, FileCount(files, env.codec, found[k]).error);
  }

  /** A single resolved file: when the serialiser's text for its spec reads back through
      the parser of the output path, the run succeeds exactly when the input spec is truthy, returns that
      spec, and counts the same number of paths before and after. */
  lemma {:induction false} SingleFileRoundTrip(env: Env, files: Files, inputPatterns: string, outputPath: string,
                                               input: string, spec: Value)
    requires Found(files, env.glob, inputPatterns) == [input]
    requires LoadSpec(files, env.codec, input) == Ok(spec)
    requires Reloads(env.codec, outputPath, spec)
    ensures var r := Run(env, files, inputPatterns, outputPath);
            && (r.outcome.Ok? <==> Truthy(spec))
            && (r.outcome.Ok? ==>
                  && r.outcome.value.spec == spec
                  && r.outcome.value.pathCountBefore == r.outcome.value.pathCountAfter)
  {
    var found := [input];
    assert found[..0] == [];
    assert CountAll(files, env.codec, found) == FileCount(files, env.codec, input) by {
      assert found[..|found| - 1] == [];
    }
    if CountPaths(spec).Ok? {
      var merged := MergeSpecsEffect(env, files, found, outputPath);
      assert merged.files == Saved(files, env.codec, spec, outputPath);
      SaveThenLoad(files, env.codec, spec, outputPath, outputPath);
    }
  }
}
