/** The argument views of the command-line library the tool is built on
    (`cli.Args.First`, `cli.Args.Tail`), on plain string sequences. */
module Cli {

  /** The first argument, or the empty string when there is none. */
  function First(args: seq<string>): (f: string)
    ensures |args| == 0 ==> f == ""
    ensures |args| > 0 ==> f == args[0]
  {
    if |args| > 0 then args[0] else ""
  }

  /** Every argument after the first; empty when there are fewer than two. */
  function Tail(args: seq<string>): (t: seq<string>)
    ensures |args| > 0 ==> [args[0]] + t == args
    ensures |args| <= 1 ==> t == []
  {
    if |args| >= 2 then args[1..] else []
  }

}
