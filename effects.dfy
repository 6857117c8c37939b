/** What merger.ts does through libraries: the filesystem (fs/promises), the parsers and the
    YAML serialiser (JSON.parse, js-yaml), glob expansion (@actions/glob) and the join
    subprocess (execSync). The filesystem is a mutable object holding the regular files and
    their text; the libraries are opaque total functions supplied by the environment. */
module Effects {
  import opened Wrappers
  import opened Text
  import opened Errors
  import opened OpenApi

  /** Every existing regular file, by path, with its text content. */
  type Files = map<string, string>

  /** The parsers and the serialiser: `JSON.parse`, `yaml.load` and `yaml.dump` with
      `{lineWidth: -1, noRefs: true, sortKeys: true}`. A parser failure carries its message. */
  datatype Codec = Codec(
    parseJson: string -> Result<Value, string>,
    parseYaml: string -> Result<Value, string>,
    dump: Value -> string)

  /** How a failed execSync reports itself: message and captured output streams. */
  datatype ExecFailure = ExecFailure(message: string, stderr: string, stdout: string)

  /** What running a command did: the files afterwards, and whether it failed. */
  datatype ExecResult = ExecResult(after: Files, failure: Option<ExecFailure>)

  /** Everything outside merger.ts the core depends on. */
  datatype Env = Env(
    glob: (Files, string) -> seq<string>,
    codec: Codec,
    exec: (Files, string) -> ExecResult)

  /** The outcome of an operation together with the files it left behind. */
  datatype Effect<T> = Effect(outcome: Result<T, Error>, files: Files)

  /** The parser loadSpec picks for a path: JSON.parse for a `.json` path, yaml.load otherwise. */
  function ParserFor(codec: Codec, path: string): string -> Result<Value, string> {
    if EndsWith(path, ".json") then codec.parseJson else codec.parseYaml
  }

  /** The text the serialiser writes for v, read back by the parser loadSpec picks for
      path, is v again. This is a property of the libraries, stated for one value. */
  predicate Reloads(codec: Codec, path: string, v: Value) {
    ParserFor(codec, path)(codec.dump(v)) == Ok(v)
  }

  /** loadSpec (src/merger.ts:47-55): read the file, then parse it as JSON when the
      path ends in `.json` and as YAML otherwise. */
  function LoadSpec(files: Files, codec: Codec, path: string): (r: Result<Value, Error>)
    ensures path !in files ==> r == Err(ReadFailed(path))
    ensures r.Err? ==> r.error.ReadFailed? || r.error.ParseFailed?
    ensures path in files && EndsWith(path, ".json") ==>
              (r.Ok? <==> codec.parseJson(files[path]).Ok?)
    ensures path in files && !EndsWith(path, ".json") ==>
              (r.Ok? <==> codec.parseYaml(files[path]).Ok?)
  {
    if path !in files then Err(ReadFailed(path))
    else
      var text := files[path];
      match ParserFor(codec, path)(text)
      case Ok(v) => Ok(v)
      case Err(reason) => Err(ParseFailed(path, reason))
  }

  /** The files after saveSpec (src/merger.ts:57-70) wrote `spec` as YAML to `path`. */
  function Saved(files: Files, codec: Codec, spec: Value, path: string): (r: Files)
    ensures r.Keys == files.Keys + {path}
    ensures forall q :: q in files && q != path ==> r[q] == files[q]
  {
    files[path := codec.dump(spec)]
  }

  /** Loading a path right after saving a spec to it gives back that spec exactly when the
      serialiser's text reads back as the spec; every other path loads as before. */
  lemma SaveThenLoad(files: Files, codec: Codec, spec: Value, path: string, other: string)
    ensures LoadSpec(Saved(files, codec, spec, path), codec, path) == Ok(spec) <==> Reloads(codec, path, spec)
    ensures other != path ==>
              LoadSpec(Saved(files, codec, spec, path), codec, other) == LoadSpec(files, codec, other)
  {
    var saved := Saved(files, codec, spec, path);
    assert saved[path] == codec.dump(spec);
  }

  class FileSystem {
    var files: Files

    constructor (initial: Files)
      ensures files == initial
    {
      files := initial;
    }

    /** fs.writeFile: create or overwrite one regular file. */
    method WriteFile(path: string, text: string)
      modifies this
      ensures files == old(files)[path := text]
    {
      files := files[path := text];
    }

    /** execSync: run a command, which may change any file, and report its failure. */
    method ExecSync(exec: (Files, string) -> ExecResult, command: string) returns (failure: Option<ExecFailure>)
      modifies this
      ensures files == exec(old(files), command).after
      ensures failure == exec(old(files), command).failure
    {
      var result := exec(files, command);
      files := result.after;
      failure := result.failure;
    }
  }

  /** saveSpec (src/merger.ts:57-70). */
  method SaveSpec(fs: FileSystem, codec: Codec, spec: Value, path: string)
    modifies fs
    ensures fs.files == Saved(old(fs.files), codec, spec, path)
  {
    fs.WriteFile(path, codec.dump(spec));
  }
}
