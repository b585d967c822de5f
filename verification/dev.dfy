/** The `dev` entry point (main.go): how a raw argv is split, routed through the
    builtin table, and turned into the argument vectors handed to docker-compose
    or to a plugin binary.

    The global `additionalArgs` of the program is threaded explicitly as `add`.
    The world the tool runs in is a value: the path of the support-services
    compose file and the process runner.
 */
module Dev {
  import opened Process
  import opened Cli
  import opened Commands
  import Update

  /** The application name, also the support-services project name. */
  const Name := "dev"

  /** Prefix of plugin executables. */
  const PluginPrefix := Name + "-"

  /** The orchestration executable every builtin proxies to. */
  const Compose := "docker-compose"

  /** Names the command-line library answers to with its own help command. */
  const HelpNames := ["help", "h"]

  /** What the tool runs against: the support-services compose file path
      (`<home>/.dev/support_services.yml`) and how a launched process ends. */
  datatype World = World(composeFile: string, runner: Runner)

  /** The search-path test the tool uses everywhere: cmd.Installed, answered by the same runner. */
  function OnPath(w: World): string -> bool {
    n => Installed(w.runner, n)
  }

  /** argv after `init` has peeled off the additional arguments. */
  datatype Invocation = Invocation(argv: seq<string>, additional: seq<string>)

  /** init: keep the program name and the command token; everything after is additional. */
  function SplitArgs(raw: seq<string>): (inv: Invocation)
    ensures inv.argv + inv.additional == raw
    ensures |raw| > 2 ==> inv.argv == raw[..2] && inv.additional == raw[2..]
    ensures |raw| <= 2 ==> inv.argv == raw && inv.additional == []
    ensures |inv.argv| <= 2
  {
    if |raw| > 2 then Invocation(raw[..2], raw[2..]) else Invocation(raw, [])
  }

  /** Whether `s` ends with `suffix`. */
  predicate EndsWith(s: seq<string>, suffix: seq<string>) {
    |suffix| <= |s| && s[|s| - |suffix|..] == suffix
  }

  /** The argument vector of proxyUnmodifiedToCompose. */
  function ProxyArgs(c: Command, ctx: seq<string>, add: seq<string>): (r: seq<string>)
    ensures r == [c.name] + ctx + add
    ensures |r| == 1 + |ctx| + |add| && r[0] == c.name && EndsWith(r, add)
  {
    [FullName(c)] + (if |ctx| != 0 then ctx else []) + add
  }

  /** proxyUnmodifiedToCompose: one docker-compose call with the canonical name first. */
  function ProxyUnmodifiedToCompose(w: World, c: Command, ctx: seq<string>, add: seq<string>): (r: Run)
    ensures r.trace == [Exec(Compose, [c.name] + ctx + add)]
    ensures r.err == Nil <==> Succeeds(w.runner(r.trace[0]))
  {
    Attached(w.runner, Exec(Compose, ProxyArgs(c, ctx, add)))
  }

  /** The argument vector of upArgs. */
  function UpArgs(ctx: seq<string>, add: seq<string>): (r: seq<string>)
    ensures r == ["up", "-d"] + ctx + add
  {
    ["up", "-d"] + (if |ctx| != 0 then ctx else []) + add
  }

  /** The context args supportServicesContext parses for the implicit support-services call. */
  const SupportServicesContext: seq<string> := ["up"]

  /** The four leading arguments of every support-services call. */
  function SupportHeader(composeFile: string): seq<string> {
    ["-f", composeFile, "-p", Name]
  }

  /** The argument vector of supportServicesArgs. */
  function SupportServicesArgs(composeFile: string, ctx: seq<string>, add: seq<string>): (r: seq<string>)
    ensures |r| == 4 + (if First(ctx) != "" then 1 else 0) + (if First(ctx) == "up" then 1 else 0) + |Tail(ctx)| + |add|
    ensures r[..4] == ["-f", composeFile, "-p", "dev"]
    ensures First(ctx) != "" ==> r[4] == First(ctx)
    ensures First(ctx) == "up" ==> r[5] == "-d"
    ensures EndsWith(r, Tail(ctx) + add)
    ensures EndsWith(r, add)
  {
    var first := First(ctx);
    SupportHeader(composeFile)
    + (if first != "" then [first] else [])
    + (if first == "up" then ["-d"] else [])
    + (if |Tail(ctx)| != 0 then Tail(ctx) else [])
    + add
  }

  /** supportServices: one docker-compose call scoped to the support-services file and project. */
  function SupportServices(w: World, ctx: seq<string>, add: seq<string>): (r: Run)
    ensures r.trace == [Exec(Compose, SupportServicesArgs(w.composeFile, ctx, add))]
    ensures r.err == Nil <==> Succeeds(w.runner(r.trace[0]))
  {
    Attached(w.runner, Exec(Compose, SupportServicesArgs(w.composeFile, ctx, add)))
  }

  /** up: start the support services (ignoring how that went), then bring the project up
      detached; the additional arguments reach the second call twice. */
  function Up(w: World, ctx: seq<string>, add: seq<string>): (r: Run)
    ensures |r.trace| == 2
    ensures r.trace[0] == Exec(Compose, ["-f", w.composeFile, "-p", "dev", "up", "-d"] + add)
    ensures r.trace[1] == Exec(Compose, ["up", "-d"] + ctx + add + add)
    ensures r.err == Nil <==> Succeeds(w.runner(r.trace[1]))
    ensures r.err != Nil ==> r.err == Failed(r.trace[1], w.runner(r.trace[1]))
  {
    var support := SupportServices(w, SupportServicesContext, add);
    assert support.trace[0].args == SupportHeader(w.composeFile) + ["up", "-d"] + add;
    var main := Attached(w.runner, Exec(Compose, UpArgs(ctx, add) + add));
    Run(support.trace + main.trace, main.err)
  }

  /** run: only prints what it would do. */
  function RunPlaceholder(): (r: Run)
    ensures r.trace == [] && r.err == Nil
  {
    Run([], Nil)
  }

  /** The plugin executable for a command name. */
  function PluginName(first: string): (p: string)
    ensures |p| == 4 + |first| && p[..4] == "dev-" && p[4..] == first
  {
    PluginPrefix + first
  }

  /** The argument vector a plugin receives. */
  function PluginArgs(args: seq<string>, add: seq<string>): (r: seq<string>)
    ensures |args| > 0 ==> [args[0]] + r == args + add
    ensures |args| == 0 ==> r == add
  {
    (if |Tail(args)| != 0 then Tail(args) else []) + add
  }

  /** How an invocation was handled. */
  datatype Dispatch =
    | InitDNS                                   // CatchInitDNS took over
    | InitFailed                                // assertInitialized failed
    | GlobalFlag(flag: string)                  // the library parsed a global flag
    | Help                                      // usage was shown
    | Builtin(command: Command, run: Run)       // a table entry ran
    | NotACommand(name: string)                 // no such plugin on the search path
    | Plugin(plugin: string, run: Run)          // a plugin binary ran

  /** The processes an invocation launched, in order. */
  function Trace(d: Dispatch): seq<Exec> {
    match d
    case Builtin(_, run) => run.trace
    case Plugin(_, run) => run.trace
    case _ => []
  }

  /** The error the action handed back to the library. */
  function ErrOf(d: Dispatch): Err {
    match d
    case Builtin(_, run) => run.err
    case Plugin(_, run) => run.err
    case _ => Nil
  }

  /** callPlugin: run `dev-<first>` with the remaining arguments, if it is installed. */
  function CallPlugin(w: World, args: seq<string>, add: seq<string>): (d: Dispatch)
    ensures d.NotACommand? <==> !Installed(w.runner, PluginName(First(args)))
    ensures d.NotACommand? ==> d.name == First(args)
    ensures d.Plugin? || d.NotACommand?
    ensures d.Plugin? ==> && d.plugin == PluginName(First(args))
                          && d.run.trace == [Exec(d.plugin, Tail(args) + add)]
                          && (d.run.err == Nil <==> Succeeds(w.runner(d.run.trace[0])))
  {
    var plugin := PluginName(First(args));
    if !Installed(w.runner, plugin) then NotACommand(First(args))
    else Plugin(plugin, Attached(w.runner, Exec(plugin, PluginArgs(args, add))))
  }

  /** app.Action: an empty first argument shows help; anything else is a plugin. */
  function AppAction(w: World, args: seq<string>, add: seq<string>): (d: Dispatch)
    ensures First(args) == "" ==> d == Help
    ensures First(args) != "" ==> d == CallPlugin(w, args, add)
  {
    if First(args) == "" then Help else CallPlugin(w, args, add)
  }

  /** The action of a table entry, applied to its context arguments. */
  function Perform(w: World, c: Command, ctx: seq<string>, add: seq<string>): (r: Run)
    ensures r.trace == [] <==> c.action.RunPlaceholder?
    ensures r.err != Nil ==> r.err.call in r.trace && r.err.status == w.runner(r.err.call) && !Succeeds(r.err.status)
    ensures !c.action.Update? ==> forall e :: e in r.trace ==> EndsWith(e.args, add)
    ensures c.action.Update? ==> r.trace[0] == Update.Call(Update.UpdateApp)
  {
    match c.action
    case Proxy => ProxyUnmodifiedToCompose(w, c, ctx, add)
    case Up => Up(w, ctx, add)
    case SupportServices => SupportServices(w, ctx, add)
    case RunPlaceholder => RunPlaceholder()
    case Update => Update.ActionFn(w.runner, OnPath(w))
  }

  /** A token the library's flag parser takes as a flag (`--` only ends the flags). */
  predicate IsFlagToken(t: string) {
    |t| >= 2 && t[0] == '-' && t != "--"
  }

  /** The library's routing of the positional arguments: the table first, then its own
      help command, then app.Action. */
  function Route(w: World, positional: seq<string>, add: seq<string>): (d: Dispatch)
    ensures d != InitDNS && d != InitFailed && !d.GlobalFlag?
    ensures d.Builtin? <==> |positional| > 0 && Lookup(Table, positional[0]).Some?
    ensures d.Builtin? ==> d.command == Lookup(Table, positional[0]).value
    ensures d.Builtin? ==> d.run == Perform(w, d.command, Tail(positional), add)
  {
    if |positional| > 0 && Lookup(Table, positional[0]).Some? then
      var c := Lookup(Table, positional[0]).value;
      Builtin(c, Perform(w, c, Tail(positional), add))
    else if |positional| > 0 && positional[0] in HelpNames then Help
    else AppAction(w, positional, add)
  }

  /** app.Run on the split argv: a leading global flag is the library's business;
      `--` ends the flags; the rest is routed. */
  function AppRun(w: World, inv: Invocation): (d: Dispatch)
    requires |inv.argv| <= 2
    ensures d != InitDNS && d != InitFailed
    ensures |inv.argv| <= 1 ==> d == Help
    ensures |inv.argv| == 2 && !IsFlagToken(inv.argv[1]) && inv.argv[1] != "--" ==> d == Route(w, [inv.argv[1]], inv.additional)
  {
    var args := if |inv.argv| > 0 then inv.argv[1..] else [];
    if |args| > 0 && IsFlagToken(args[0]) then GlobalFlag(args[0])
    else
      var positional := if |args| > 0 && args[0] == "--" then args[1..] else args;
      Route(w, positional, inv.additional)
  }

  /** assertInitialized: the config directory and compose file are written, errors ignored. */
  function AssertInitialized(): Err {
    Nil
  }

  /** The intercept reads the argv after `init` has truncated it, yet decides exactly as it
      would on the raw argv: the token it tests is never peeled off. */
  lemma InitDNSSeesRawToken(raw: seq<string>)
    ensures Update.CatchInitDNS(SplitArgs(raw).argv) <==> |raw| > 1 && raw[1] == "init-dns"
  {
    if |raw| > 2 {
      assert SplitArgs(raw).argv[1] == raw[1];
    }
  }

  /** main: the init-dns intercept, bootstrap, then the library's routing. */
  function Main(w: World, raw: seq<string>): (d: Dispatch)
    ensures d == InitDNS <==> |raw| > 1 && raw[1] == "init-dns"
    ensures d != InitFailed
    ensures |raw| <= 1 ==> d == Help
  {
    var inv := SplitArgs(raw);
    if Update.CatchInitDNS(inv.argv) then InitDNS
    else if AssertInitialized() != Nil then InitFailed
    else AppRun(w, inv)
  }
}
