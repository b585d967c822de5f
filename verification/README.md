# dev — a Dafny model of the command router

`dev` is a small command-line front end to `docker-compose`. It does four things:

- It peels everything after the command token off the argv as *additional arguments*.
- It routes the command token through a fixed table of builtins with aliases. Most builtins are forwarded to `docker-compose` under their canonical name. `up` first starts the support-services project. `support-services` is scoped to a fixed compose file and project. `update` runs a self-update and installs missing dependencies.
- It hands any other token to a plugin binary `dev-<token>`.
- It intercepts `dev init-dns` before anything else.

This project models that routing and the argument vectors it builds.

Effects are values in this model:

- A launched process is an event `Exec(exe, args)` appended to a trace.
- How a process ends is an oracle `Runner = Exec -> Status`.
- Whether an executable is on the search path is `cmd.Installed`, answered by the same runner for the `which -s <name>` probe.
- Go's `error` is `Err = Nil | Failed(call, status)`.

The global `additionalArgs` is passed explicitly as `add`. The outcome of a whole invocation is a `Dispatch`, one of:

- init-dns intercept;
- bootstrap failure;
- global flag;
- help;
- builtin;
- unknown command;
- plugin.

Modules:

- `Process`: `exec.Cmd.Run` with attached output, running several calls in order until the first error, and `cmd.Installed`.
- `Cli`: the `First`/`Tail` views of the command-line library's argument list.
- `Commands`: the builtin table, and the library's first-match lookup by name or alias.
- `Update`: the `update` action and the `init-dns` intercept.
- `Dev`: `init`, `main`, `app.Action`, the builtin actions and the plugin call.
- `EndToEnd`: whole invocations from the raw argv to the processes launched.

The model follows the code as written, including four quirks:

- `up` appends the additional arguments twice to its main call. `upArgs` already appends them, and `up` appends them again.
- The support-services call that `up` makes first uses the synthetic context `["up"]`. It therefore runs `-f <file> -p dev up -d` followed by the additional arguments. Its error is discarded, so a failure there does not stop the main call.
- `init` keeps only the program name and the command token. So every builtin sees an empty context argument list, and its arguments arrive as additional arguments. `dev ss up` therefore gets no `-d`.
- main.go discards `Run`'s error. The model records the action's error in the `Dispatch`; exit-status handling inside the library is not modelled.

## Model

| member | source | states |
|---|---|---|
| Process.Attached | cmd/cmd.go:8-14 | exactly one process is launched, and the error is nil iff it started and exited with status 0; otherwise the error names that call and its status |
| Process.Installed | cmd/installed.go:9-27 | a tool counts as missing iff the `which -s` probe ran and exited non-zero; a probe that could not start counts as installed |
| Process.Sequence | update/update.go:20-56 | running steps one after another launches a prefix of them, and every launched step except the last succeeded; with no error all steps ran and succeeded, otherwise the last launched step failed and is the error returned |
| Process.SequenceReaches | update/update.go:20-56 | step k is launched iff every step before it succeeded |
| Process.SequenceLaunchesIff | update/update.go:20-56 | with pairwise distinct calls, call k appears in the trace iff every call before it succeeded |
| Process.SequenceSucceedsIffLast | update/update.go:20-56 | with pairwise distinct calls, the run reports no error iff the last call was launched and succeeded |
| Commands.Lookup | main.go:94-175 | the lookup finds nothing iff no entry answers to the name, and what it finds is an entry that does |
| Commands.LookupFindsOwner | main.go:94-175 | when names are unique, resolving any name of entry i returns entry i |
| Commands.NameOwnedOnce | main.go:94-175 | a name declared by one entry of the table is declared by no other entry |
| Commands.EntryNamesDistinct | main.go:94-175 | no entry of the table lists the same name twice |
| Commands.TableNamesUnique | main.go:94-175 | all fourteen canonical names and aliases are pairwise distinct |
| Commands.AliasesResolveToCanonical | main.go:94-175 | every alias resolves to the entry that declares it, whose full name is its canonical name |
| Update.Plan | update/update.go:20-56 | the self-update comes first and the DNS step last; the brew installer, `docker` and `docker-compose` installs are attempted iff that tool is not installed |
| Update.PlanInOrder | update/update.go:20-56 | every planned step has a rank in the fixed order update, brew, docker, docker-compose, DNS, and each step ranks above the one before it |
| Update.PlanStepsDistinct | update/update.go:20-56 | no step is planned twice |
| Update.ActionFn | update/update.go:20-56 | a non-empty prefix of the plan is launched, beginning with `go get -u`; with no error the whole plan ran, otherwise the last launched step failed and is the error returned |
| Update.Call | update/update.go:58-103 | the self-update is the only `go` call, the package installs are the only `brew` calls and carry the package as last argument, and the DNS step is the only `sudo` call |
| Update.CallInjective | update/update.go:58-103 | distinct steps launch distinct processes |
| Update.PlanCallsDistinct | update/update.go:20-56 | the processes of a plan are pairwise distinct |
| Update.StepLaunchedIff | update/update.go:20-56 | a planned step is launched iff every earlier planned step succeeded |
| Update.UnplannedNotLaunched | update/update.go:27-46 | a step the plan skips because its tool is installed is never launched |
| Update.ActionSucceedsIff | update/update.go:20-56 | the update reports success iff every planned step succeeded |
| Update.UpdateFailureStops | update/update.go:21-25 | if `go get -u` fails, nothing else is launched and its error is returned |
| Update.BrewInstallerRunsIff | update/update.go:27-32 | the package-manager installer runs iff brew is missing and the self-update succeeded |
| Update.DockerInstallRunsIff | update/update.go:34-39 | `brew install docker` runs iff docker is missing and every earlier step succeeded |
| Update.ComposeInstallRunsIff | update/update.go:41-46 | `brew install docker-compose` runs iff it is missing and every earlier step succeeded |
| Update.DnsStepDecidesSuccess | update/update.go:48-55 | the final step is `sudo dev init-dns`, and the update succeeds iff that step was reached and succeeded |
| Dev.SplitArgs | main.go:27-33 | the split loses nothing; with more than two tokens the argv keeps the first two and the rest become additional arguments, otherwise all tokens stay and there are none |
| Dev.ProxyArgs | main.go:180-186 | the forwarded vector is the canonical name, then the context arguments, then the additional arguments; the emptiness guard changes nothing |
| Dev.ProxyUnmodifiedToCompose | main.go:180-188 | exactly one `docker-compose` call with that vector; the error is nil iff it succeeded |
| Dev.UpArgs | main.go:204-217 | `up -d`, then the context arguments, then the additional arguments |
| Dev.SupportServicesArgs | main.go:232-253 | the header `-f <file> -p dev`, the first context argument if non-empty, `-d` right after it iff it is `up`, and the result ends with the remaining context arguments followed by the additional arguments |
| Dev.SupportServices | main.go:225-230 | one `docker-compose` call with the support-services vector; the error is nil iff it succeeded |
| Dev.Up | main.go:195-202 | two calls: the support services with `up -d`, then `up -d` with the context arguments and the additional arguments twice; only the second call decides the error |
| Dev.RunPlaceholder | main.go:190-193 | `run` launches nothing and reports no error |
| Dev.PluginName | main.go:258 | the plugin executable is `dev-` followed by the command token |
| Dev.PluginArgs | main.go:264-268 | the plugin receives the arguments after the command token, then the additional arguments |
| Dev.CallPlugin | main.go:257-282 | a missing plugin yields "not a dev command" with nothing launched; otherwise exactly `dev-<token>` runs with the plugin arguments, and the error is nil iff it succeeded |
| Dev.AppAction | main.go:86-92 | an empty first argument shows help; anything else goes to the plugin call |
| Dev.Perform | main.go:94-175 | the action of an entry launches nothing exactly for `run`; any error it returns names a launched call that failed, with that call's status; every action except `update` ends each launch with the additional arguments; `update` starts with `go get -u` |
| Dev.Route | main.go:94-177 | a builtin runs iff the first positional argument names a table entry; it runs that entry's action on the remaining positional arguments |
| Dev.AppRun | main.go:177 | with no command token usage is shown; a plain command token is routed with the additional arguments |
| Dev.Main | main.go:64-92 | the init-dns intercept fires iff the second raw token is `init-dns`; bootstrap never fails; an invocation without a command shows help |
| Dev.InitDNSSeesRawToken | update/update.go:105-117 | the intercept, applied to the argv that `init` has already truncated, fires exactly when the second raw token is `init-dns` |
| EndToEnd.MainRoutesCommandWord | main.go:27-33 | `dev <word> rest...` routes on the word, with `rest` as the additional arguments |
| EndToEnd.MainRunsBuiltin | main.go:94-177 | `dev <name> rest...` for any name or alias of entry i runs that entry with no context arguments |
| EndToEnd.MainBuiltinSeesEmptyContext | main.go:27-33 | whatever the argv, a builtin receives an empty context argument list |
| EndToEnd.ProxyEndToEnd | main.go:180-188 | a forwarded builtin, called by name or alias, runs `docker-compose <canonical name> rest...` once |
| EndToEnd.PerformsProxy | main.go:180-188 | a forwarded entry with no context arguments passes its canonical name and then the additional arguments |
| EndToEnd.PerformsUp | main.go:195-217 | `up` with no context arguments issues the two stated calls |
| EndToEnd.PerformsSupportServices | main.go:232-253 | support-services with no context arguments passes the header, then the additional arguments |
| EndToEnd.PerformsUpdate | main.go:169-174 | the `update` entry runs the update action, whatever the additional arguments |
| EndToEnd.UpEndToEnd | main.go:195-217 | `dev up|u rest...` starts the support services detached, then runs `up -d rest rest`; only that second call decides success |
| EndToEnd.UpIgnoresSupportServicesResult | main.go:196 | the outcome of the support-services call has no influence on `up` |
| EndToEnd.SupportServicesEndToEnd | main.go:226-253 | `dev support-services|ss rest...` runs `docker-compose -f <file> -p dev rest...` with no `-d` injected |
| EndToEnd.RunEndToEnd | main.go:135-139 | `dev run ...` launches nothing and succeeds |
| EndToEnd.UpdateEndToEnd | main.go:169-174 | `dev update|U ...` runs the update action |
| EndToEnd.NotATableWord | main.go:94-175 | a word owned by no entry is found by no lookup |
| EndToEnd.PluginEndToEnd | main.go:257-282 | an unknown word launches nothing when `dev-<word>` is missing, otherwise it runs exactly `dev-<word> rest...` |
| EndToEnd.HelpForEmptyWord | main.go:86-90 | an empty command token shows usage |
| EndToEnd.RouteHelpWord | main.go:177 | a help word that names no entry shows usage |
| EndToEnd.HelpForHelpCommand | main.go:177 | `dev help` and `dev h` show usage |
| EndToEnd.FlagTokenGoesToLibrary | main.go:177 | a command token that the library's flag test accepts (`-` followed by at least one character, other than `--`) is left to the library's global-flag parsing, and nothing else runs |
| EndToEnd.HelpAfterTerminator | main.go:177 | `dev -- rest...` leaves no command and shows usage |
| EndToEnd.AdditionalArgsLast | main.go:180-282 | for every invocation except `update`, every launched process ends with the additional arguments |

## Left out

- Output: printing, usage and version rendering, and the messages of `callPlugin`, `run` and `ActionFn` are not modelled. `run` is modelled only as launching nothing.
- Bootstrap: `assertInitialized` writes the config directory and the compose file, and always returns nil. It is modelled as a constant nil error, because no filesystem is modelled.
- init-dns: the resolver-file writing done by `initDNS` (update/update.go:119-160) is not modelled. Only the intercept decision is.
- `haveSudo` (update/update.go:143-159) launches `sudo -n true` before the DNS step; its result only chooses whether to print a prompt, and it calls `log.Fatal` when `sudo` cannot be started.
- Update.ActionFn (and so Update.DnsStepDecidesSuccess): the `sudo -n true` launch of `haveSudo` is not traced, and when `sudo` cannot be started the program exits through `log.Fatal` before `sudo dev init-dns` is launched; the model instead launches that call and returns its start failure as the error.
- Flag parsing: the command-line library's global flags, and flags after a builtin name, are not modelled. A leading token that looks like a flag ends in the `GlobalFlag` outcome, and nothing further is modelled about it. Bash completion is left out too.
- Exit status: main.go discards `Run`'s error; exit-status handling inside the library (which can exit with a failing child's code) is not modelled.
- Process.Installed: the `which -s` probe is answered by the runner but not recorded in the trace, because its output is never shown. A process killed by a signal counts as `Exited` with the code that `WaitStatus.ExitStatus` reports.
- Process.Attached: output streaming to the terminal is not modelled, because only the launch and the error are observable.
- Dev.Main: an empty argv is handled like an argv holding only the program name. The operating system always supplies the program name.
- templates/compose.go, the content of the support-services compose file, is not part of this model.
