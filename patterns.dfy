/**
 * Regular expressions and URL parsing, which the tool takes from the Go
 * standard library, as functions supplied from outside the model.
 */
module Patterns {
  import opened Fs

  /** regexp.Compile succeeds on a pattern; the compiled pattern matches a path. */
  datatype Regexp = Regexp(compiles: string -> bool, matches: (string, Path) -> bool)
}
