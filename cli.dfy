/** What the commands read from the command line. */
module Cli {
  /** c.Args().Get(k): the k-th positional argument, or "" when there are fewer. */
  function Arg(args: seq<string>, k: nat): (r: string)
    ensures k >= |args| ==> r == ""
    ensures r != "" ==> k < |args| && r == args[k]
  {
    if k < |args| then args[k] else ""
  }
}
