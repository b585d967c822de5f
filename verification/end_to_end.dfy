/** Whole invocations of `dev`, from the raw argv to the processes launched. */
module EndToEnd {
  import opened Process
  import opened Cli
  import opened Commands
  import opened Dev
  import Update

  /** Every name of the table is an ordinary command token: not empty, not a flag,
      not the flag terminator, not the DNS helper and not the library's help command. */
  lemma OwnedNamesArePlain(n: string)
    requires Owner(n) >= 0
    ensures n != "" && !IsFlagToken(n) && n != "--" && n != "init-dns" && n !in HelpNames
  {
  }

  /** A command line whose command token is an ordinary word is routed on that word,
      with everything after it as the additional arguments. */
  lemma MainRoutesCommandWord(w: World, prog: string, n: string, rest: seq<string>)
    requires n != "init-dns" && !IsFlagToken(n) && n != "--"
    ensures Main(w, [prog, n] + rest) == Route(w, [n], rest)
  {
    var raw := [prog, n] + rest;
    assert raw[1] == n;
    assert SplitArgs(raw).argv == [prog, n];
    assert SplitArgs(raw).additional == rest;
  }

  /** Every name of the table is an ordinary word for the router. */
  lemma TableWordIsPlain(i: nat, n: string)
    requires i < |Table| && HasName(Table[i], n)
    ensures n != "init-dns" && !IsFlagToken(n) && n != "--"
  {
    OwnerOfTableNames(i, n);
    OwnedNamesArePlain(n);
  }

  /** `dev <name> rest...` for a name of table entry i runs that entry with no context
      arguments and `rest` as the additional arguments. */
  lemma MainRunsBuiltin(w: World, prog: string, i: nat, n: string, rest: seq<string>)
    requires i < |Table| && HasName(Table[i], n)
    ensures Main(w, [prog, n] + rest) == Builtin(Table[i], Perform(w, Table[i], [], rest))
  {
    assert Lookup(Table, n) == Some(Table[i]) by {
      AliasesResolveToCanonical(i, n);
    }
    TableWordIsPlain(i, n);
    MainRoutesCommandWord(w, prog, n, rest);
  }

  /** Because `init` keeps at most two tokens, a builtin always runs with no context arguments. */
  lemma MainBuiltinSeesEmptyContext(w: World, raw: seq<string>)
    requires Main(w, raw).Builtin?
    ensures Main(w, raw).run == Perform(w, Main(w, raw).command, [], SplitArgs(raw).additional)
  {
  }

  /** `dev <name-or-alias> rest...` for a proxied builtin runs docker-compose once, with the
      canonical name (never the alias) followed by `rest`. */
  lemma ProxyEndToEnd(w: World, prog: string, i: nat, n: string, rest: seq<string>)
    requires i < |Table| && Table[i].action == Proxy && HasName(Table[i], n)
    ensures Main(w, [prog, n] + rest).Builtin?
    ensures Main(w, [prog, n] + rest).command == Table[i]
    ensures Trace(Main(w, [prog, n] + rest)) == [Exec(Compose, [Table[i].name] + rest)]
  {
    MainRunsBuiltin(w, prog, i, n, rest);
    PerformsProxy(w, Table[i], rest);
  }

  /** A proxied entry with no context arguments: its canonical name, then the additional arguments. */
  lemma PerformsProxy(w: World, c: Command, add: seq<string>)
    requires c.action == Proxy
    ensures Perform(w, c, [], add).trace == [Exec(Compose, [c.name] + add)]
  {
    assert [c.name] + [] + add == [c.name] + add;
  }

  /** The `up` entry runs Up; with no context arguments its calls are the ones stated. */
  lemma PerformsUp(w: World, add: seq<string>)
    ensures Perform(w, Table[11], [], add) == Dev.Up(w, [], add)
    ensures Dev.Up(w, [], add).trace == [
              Exec(Compose, ["-f", w.composeFile, "-p", "dev", "up", "-d"] + add),
              Exec(Compose, ["up", "-d"] + add + add)
            ]
  {
    assert ["up", "-d"] + [] + add + add == ["up", "-d"] + add + add;
  }

  /** The `support-services` entry with no context arguments: header then the additional arguments. */
  lemma PerformsSupportServices(w: World, add: seq<string>)
    ensures Perform(w, Table[12], [], add).trace == [Exec(Compose, ["-f", w.composeFile, "-p", "dev"] + add)]
  {
    assert SupportServicesArgs(w.composeFile, [], add) == ["-f", w.composeFile, "-p", "dev"] + add;
  }

  /** The `run` entry launches nothing. */
  lemma PerformsRun(w: World, add: seq<string>)
    ensures Perform(w, Table[7], [], add) == Run([], Nil)
  {
  }

  /** The `update` entry runs the update steps, whatever the additional arguments. */
  lemma PerformsUpdate(w: World, add: seq<string>)
    ensures Perform(w, Table[13], [], add) == Update.ActionFn(w.runner, OnPath(w))
  {
  }

  /** `dev up|u rest...` first starts the support services detached, then brings the project
      up with `rest` appended twice; only the second call decides the error. */
  lemma UpEndToEnd(w: World, prog: string, n: string, rest: seq<string>)
    requires n == "up" || n == "u"
    ensures Trace(Main(w, [prog, n] + rest)) == [
              Exec(Compose, ["-f", w.composeFile, "-p", "dev", "up", "-d"] + rest),
              Exec(Compose, ["up", "-d"] + rest + rest)
            ]
    ensures ErrOf(Main(w, [prog, n] + rest)) == Nil
            <==> Succeeds(w.runner(Exec(Compose, ["up", "-d"] + rest + rest)))
  {
    MainRunsBuiltin(w, prog, 11, n, rest);
    PerformsUp(w, rest);
  }

  /** The support-services call issued by `up` does not influence the main call or the result. */
  lemma UpIgnoresSupportServicesResult(w1: World, w2: World, ctx: seq<string>, add: seq<string>)
    requires w1.composeFile == w2.composeFile
    requires w1.runner(Exec(Compose, ["up", "-d"] + ctx + add + add)) == w2.runner(Exec(Compose, ["up", "-d"] + ctx + add + add))
    ensures Dev.Up(w1, ctx, add) == Dev.Up(w2, ctx, add)
  {
  }

  /** `dev support-services|ss rest...` runs docker-compose on the support-services project
      with `rest` appended; since `rest` lands in the additional arguments, no `-d` is ever injected. */
  lemma SupportServicesEndToEnd(w: World, prog: string, n: string, rest: seq<string>)
    requires n == "support-services" || n == "ss"
    ensures Trace(Main(w, [prog, n] + rest)) == [Exec(Compose, ["-f", w.composeFile, "-p", "dev"] + rest)]
  {
    MainRunsBuiltin(w, prog, 12, n, rest);
    PerformsSupportServices(w, rest);
  }

  /** `dev run ...` launches nothing and succeeds. */
  lemma RunEndToEnd(w: World, prog: string, rest: seq<string>)
    ensures Main(w, [prog, "run"] + rest) == Builtin(Table[7], Run([], Nil))
  {
    MainRunsBuiltin(w, prog, 7, "run", rest);
    PerformsRun(w, rest);
  }

  /** `dev update|U ...` runs the update steps; the additional arguments play no part. */
  lemma UpdateEndToEnd(w: World, prog: string, n: string, rest: seq<string>)
    requires n == "update" || n == "U"
    ensures Main(w, [prog, n] + rest) == Builtin(Table[13], Update.ActionFn(w.runner, OnPath(w)))
  {
    MainRunsBuiltin(w, prog, 13, n, rest);
    PerformsUpdate(w, rest);
  }

  /** A word no table entry declares. */
  lemma NotATableWord(n: string)
    requires Owner(n) < 0
    ensures Lookup(Table, n).None?
  {
    forall i | 0 <= i < |Table|
      ensures !HasName(Table[i], n)
    {
      if HasName(Table[i], n) {
        OwnerOfTableNames(i, n);
      }
    }
  }

  /** An unknown command goes to its plugin: nothing runs when `dev-<name>` is missing,
      otherwise the plugin runs with exactly the remaining arguments. */
  lemma PluginEndToEnd(w: World, prog: string, name: string, rest: seq<string>)
    requires name != "" && !IsFlagToken(name) && name != "--" && name != "init-dns"
    requires Lookup(Table, name).None? && name !in HelpNames
    ensures !Installed(w.runner, "dev-" + name) ==> Main(w, [prog, name] + rest) == NotACommand(name)
    ensures Installed(w.runner, "dev-" + name) ==>
              && Main(w, [prog, name] + rest).Plugin?
              && Main(w, [prog, name] + rest).plugin == "dev-" + name
              && Trace(Main(w, [prog, name] + rest)) == [Exec("dev-" + name, rest)]
  {
    MainRoutesCommandWord(w, prog, name, rest);
    assert Route(w, [name], rest) == CallPlugin(w, [name], rest);
    assert PluginName(name) == "dev-" + name;
    assert Tail([name]) + rest == rest;
  }

  lemma HelpWordsOwnedByNoEntry()
    ensures Owner("") < 0 && Owner("help") < 0 && Owner("h") < 0
  {
  }

  /** An empty command word reaches app.Action, which shows usage. */
  lemma HelpForEmptyWord(w: World, prog: string, rest: seq<string>)
    ensures Main(w, [prog, ""] + rest) == Help
  {
    MainRoutesCommandWord(w, prog, "", rest);
    HelpWordsOwnedByNoEntry();
    NotATableWord("");
    assert Lookup(Table, [""][0]).None?;
    assert AppAction(w, [""], rest) == Help;
  }

  /** A help word that no table entry declares is answered by the library's help command. */
  lemma RouteHelpWord(w: World, n: string, rest: seq<string>)
    requires Lookup(Table, n).None? && n in HelpNames
    ensures Route(w, [n], rest) == Help
  {
  }

  /** The library's own help command shows usage. */
  lemma HelpForHelpCommand(w: World, prog: string, n: string, rest: seq<string>)
    requires n == "help" || n == "h"
    ensures Main(w, [prog, n] + rest) == Help
  {
    assert Route(w, [n], rest) == Help by {
      HelpWordsOwnedByNoEntry();
      NotATableWord(n);
      RouteHelpWord(w, n, rest);
    }
    MainRoutesCommandWord(w, prog, n, rest);
  }

  /** A command token that looks like a flag is left to the library's global-flag parsing:
      no table entry, plugin or help runs. */
  lemma FlagTokenGoesToLibrary(w: World, prog: string, t: string, rest: seq<string>)
    requires IsFlagToken(t)
    ensures Main(w, [prog, t] + rest) == GlobalFlag(t)
  {
    var raw := [prog, t] + rest;
    assert raw[1] == t;
    assert t[0] != "init-dns"[0];
    assert SplitArgs(raw).argv == [prog, t];
  }

  /** `dev -- rest...`: the flag terminator is consumed and no command is left, so usage is shown. */
  lemma HelpAfterTerminator(w: World, prog: string, rest: seq<string>)
    ensures Main(w, [prog, "--"] + rest) == Help
  {
    var raw := [prog, "--"] + rest;
    assert raw[1] == "--";
    var inv := SplitArgs(raw);
    assert inv.argv == [prog, "--"];
    assert AppRun(w, inv) == Route(w, [], inv.additional);
    assert AppAction(w, [], inv.additional) == Help;
  }

  /** Every process launched for a command line other than `update` ends with the additional arguments. */
  lemma AdditionalArgsLast(w: World, raw: seq<string>)
    requires !(Main(w, raw).Builtin? && Main(w, raw).command.action == Commands.Update)
    ensures forall e :: e in Trace(Main(w, raw)) ==> EndsWith(e.args, SplitArgs(raw).additional)
  {
    var d := Main(w, raw);
    var add := SplitArgs(raw).additional;
    if d.Builtin? {
      MainBuiltinSeesEmptyContext(w, raw);
      var c := d.command;
      match c.action
      case Proxy =>
        assert Trace(d)[0].args == [c.name] + [] + add;
      case Up =>
        assert Trace(d)[0].args == ["-f", w.composeFile, "-p", "dev", "up", "-d"] + add;
        assert Trace(d)[1].args == (["up", "-d"] + [] + add) + add;
      case SupportServices =>
      case RunPlaceholder =>
    } else if d.Plugin? {
      var args := SplitArgs(raw).argv[1..];
      assert Trace(d)[0].args == Tail(args) + add;
    }
  }
}
