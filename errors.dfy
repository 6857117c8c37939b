/** The errors merger.ts raises or lets through, with the message text each one carries. */
module Errors {
  import opened Text

  datatype Error =
    | NoFilesToMerge
      // mergeSpecs called with an empty list
    | NoFilesFound(patterns: string)
      // no pattern resolved to any file
    | CannotReadPaths(holder: string)
      // JavaScript TypeError: reading `.paths` of "undefined" or "null"
    | ReadFailed(path: string)
      // fs.readFile rejected: no regular file at path
    | ParseFailed(path: string, reason: string)
      // JSON.parse or yaml.load threw, with the parser's own message
    | MergeFailed(command: string, cause: string, stderr: string, stdout: string)
      // the join step failed; everything that went wrong is folded into this one error
    | MergedSpecEmpty(path: string)
      // the merged output loaded as a falsy value

  const MergeFailurePreamble := "Failed to merge files using redocly join. Command: "

  /** The part of a merge failure's message after the command. */
  function FailureDetails(cause: string, stderr: string, stdout: string): string {
    "\nError: " + cause + "\nStderr: " + stderr + "\nStdout: " + stdout
  }

  /** The `message` of the Error object that is thrown: each one ends with, or for a merge
      failure starts with, what it is about. */
  function Message(e: Error): (m: string)
    ensures e.NoFilesFound? ==> EndsWith(m, e.patterns)
    ensures e.MergedSpecEmpty? ==> EndsWith(m, e.path)
    ensures e.ParseFailed? ==> m == e.reason
    ensures e.MergeFailed? ==> StartsWith(m, MergeFailurePreamble + e.command)
  {
    match e
    case NoFilesToMerge => "No files to merge"
    case NoFilesFound(patterns) => "No files found matching patterns: " + patterns
    case CannotReadPaths(holder) => "Cannot read properties of " + holder + " (reading 'paths')"
    case ReadFailed(path) => "ENOENT: no such file or directory, open '" + path + "'"
    case ParseFailed(_, reason) => reason
    case MergeFailed(command, cause, stderr, stdout) =>
      MergeFailurePreamble + command + FailureDetails(cause, stderr, stdout)
    case MergedSpecEmpty(path) => "Failed to load merged spec from " + path
  }

  /** The message of a merge failure starts with the fixed preamble followed by the
      command that was run, and so contains the command. */
  lemma MergeFailureMessageNamesCommand(command: string, cause: string, stderr: string, stdout: string)
    ensures var m := Message(MergeFailed(command, cause, stderr, stdout));
            StartsWith(m, MergeFailurePreamble + command) && Contains(m, command)
  {
    var details := FailureDetails(cause, stderr, stdout);
    var m := Message(MergeFailed(command, cause, stderr, stdout));
    assert m == MergeFailurePreamble + command + details;
    assert m[..|MergeFailurePreamble + command|] == MergeFailurePreamble + command;
    ContainsInfix(MergeFailurePreamble, command, details);
  }
}
