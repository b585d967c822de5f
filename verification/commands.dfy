/** The builtin command table of main.go and the library's lookup of a command by name or alias. */
module Commands {

  datatype Option<T> = None | Some(value: T)

  /** What a builtin does when selected. */
  datatype Action =
    | Proxy            // proxyUnmodifiedToCompose
    | Up               // up
    | SupportServices  // supportServices
    | RunPlaceholder   // run
    | Update           // update.ActionFn

  /** One entry of the table: canonical name, aliases and action. */
  datatype Command = Command(name: string, aliases: seq<string>, action: Action)

  /** Every name an entry answers to, canonical name first. */
  function Names(c: Command): seq<string> {
    [c.name] + c.aliases
  }

  /** The library's Command.HasName: the canonical name or one of the aliases. */
  predicate HasName(c: Command, n: string) {
    n in Names(c)
  }

  /** The library's Command.FullName for a top-level command: its canonical name. */
  function FullName(c: Command): (s: string)
    ensures HasName(c, s)
  {
    c.name
  }

  /** The fourteen builtins, in declaration order. */
  const Table: seq<Command> := [
    Command("build", ["b"], Proxy),
    Command("kill", ["k"], Proxy),
    Command("logs", ["l"], Proxy),
    Command("ps", [], Proxy),
    Command("pull", ["p"], Proxy),
    Command("restart", ["r"], Proxy),
    Command("rm", [], Proxy),
    Command("run", [], RunPlaceholder),
    Command("scale", [], Proxy),
    Command("start", ["s"], Proxy),
    Command("stop", ["st"], Proxy),
    Command("up", ["u"], Up),
    Command("support-services", ["ss"], SupportServices),
    Command("update", ["U"], Update)
  ]

  /** The library's App.Command: the first entry, in table order, that answers to `n`. */
  function Lookup(table: seq<Command>, n: string): (r: Option<Command>)
    ensures r.None? <==> forall i :: 0 <= i < |table| ==> !HasName(table[i], n)
    ensures r.Some? ==> exists i :: 0 <= i < |table| && table[i] == r.value && HasName(table[i], n)
  {
    if |table| == 0 then None
    else if HasName(table[0], n) then Some(table[0])
    else
      var r := Lookup(table[1..], n);
      assert forall i :: 0 < i < |table| ==> table[i] == table[1..][i - 1];
      r
  }

  /** No entry lists the same name twice. */
  predicate DistinctNames(names: seq<string>) {
    forall i, j :: 0 <= i < j < |names| ==> names[i] != names[j]
  }

  /** No name appears in both lists. */
  predicate Disjoint(a: seq<string>, b: seq<string>) {
    forall n :: n in a ==> n !in b
  }

  /** All canonical names and aliases of the table are pairwise distinct. */
  predicate UniqueNames(table: seq<Command>) {
    && (forall i :: 0 <= i < |table| ==> DistinctNames(Names(table[i])))
    && (forall i, j :: 0 <= i < |table| && 0 <= j < |table| && i != j ==> Disjoint(Names(table[i]), Names(table[j])))
  }

  /** When names are unique, any name or alias of an entry resolves to that very entry. */
  lemma LookupFindsOwner(table: seq<Command>, i: nat, n: string)
    requires UniqueNames(table)
    requires i < |table| && HasName(table[i], n)
    ensures Lookup(table, n) == Some(table[i])
  {
    var j :| 0 <= j < |table| && table[j] == Lookup(table, n).value && HasName(table[j], n);
    if j != i {
      assert Disjoint(Names(table[i]), Names(table[j]));
    }
  }

  /** The position of the entry that declares `n`, or -1; written out independently of Table. */
  function Owner(n: string): int {
    if n == "build" || n == "b" then 0
    else if n == "kill" || n == "k" then 1
    else if n == "logs" || n == "l" then 2
    else if n == "ps" then 3
    else if n == "pull" || n == "p" then 4
    else if n == "restart" || n == "r" then 5
    else if n == "rm" then 6
    else if n == "run" then 7
    else if n == "scale" then 8
    else if n == "start" || n == "s" then 9
    else if n == "stop" || n == "st" then 10
    else if n == "up" || n == "u" then 11
    else if n == "support-services" || n == "ss" then 12
    else if n == "update" || n == "U" then 13
    else -1
  }

  /** Owner agrees with the first seven entries of the table. */
  lemma OwnerOfLowerNames(i: nat, n: string)
    requires i < 7 && HasName(Table[i], n)
    ensures Owner(n) == i
  {
    var c := Table[i];
    assert n == c.name || n in c.aliases;
    if i == 0 { assert c == Command("build", ["b"], Proxy); }
    else if i == 1 { assert c == Command("kill", ["k"], Proxy); }
    else if i == 2 { assert c == Command("logs", ["l"], Proxy); }
    else if i == 3 { assert c == Command("ps", [], Proxy); }
    else if i == 4 { assert c == Command("pull", ["p"], Proxy); }
    else if i == 5 { assert c == Command("restart", ["r"], Proxy); }
    else { assert c == Command("rm", [], Proxy); }
  }

  /** Owner agrees with the last seven entries of the table. */
  lemma OwnerOfUpperNames(i: nat, n: string)
    requires 7 <= i < |Table| && HasName(Table[i], n)
    ensures Owner(n) == i
  {
    var c := Table[i];
    assert n == c.name || n in c.aliases;
    if i == 7 { assert c == Command("run", [], RunPlaceholder); }
    else if i == 8 { assert c == Command("scale", [], Proxy); }
    else if i == 9 { assert c == Command("start", ["s"], Proxy); }
    else if i == 10 { assert c == Command("stop", ["st"], Proxy); }
    else if i == 11 { assert c == Command("up", ["u"], Up); }
    else if i == 12 { assert c == Command("support-services", ["ss"], SupportServices); }
    else { assert c == Command("update", ["U"], Update); }
  }

  /** Owner agrees with the table: every name of entry i is owned by i. */
  lemma OwnerOfTableNames(i: nat, n: string)
    requires i < |Table| && HasName(Table[i], n)
    ensures Owner(n) == i
  {
    if i < 7 {
      OwnerOfLowerNames(i, n);
    } else {
      OwnerOfUpperNames(i, n);
    }
  }

  /** A name declared by entry i is declared by no other entry. */
  lemma NameOwnedOnce(i: nat, j: nat, n: string)
    requires i < |Table| && j < |Table| && i != j && HasName(Table[i], n)
    ensures !HasName(Table[j], n)
  {
    OwnerOfTableNames(i, n);
    if HasName(Table[j], n) {
      OwnerOfTableNames(j, n);
    }
  }

  /** No entry of the table lists a name twice. */
  lemma EntryNamesDistinct(i: nat)
    requires i < |Table|
    ensures DistinctNames(Names(Table[i]))
  {
    var c := Table[i];
    assert |c.aliases| <= 1 && (|c.aliases| == 1 ==> c.aliases[0] != c.name);
  }

  /** The table of main.go has no name or alias twice. */
  lemma TableNamesUnique()
    ensures UniqueNames(Table)
  {
    forall i | 0 <= i < |Table|
      ensures DistinctNames(Names(Table[i]))
    {
      EntryNamesDistinct(i);
    }
    forall i, j | 0 <= i < |Table| && 0 <= j < |Table| && i != j
      ensures Disjoint(Names(Table[i]), Names(Table[j]))
    {
      forall n | n in Names(Table[i])
        ensures n !in Names(Table[j])
      {
        NameOwnedOnce(i, j, n);
      }
    }
  }

  /** Resolving any name or alias of the table yields the entry that declares it,
      and so its canonical name. */
  lemma AliasesResolveToCanonical(i: nat, n: string)
    requires i < |Table| && HasName(Table[i], n)
    ensures Lookup(Table, n) == Some(Table[i])
    ensures FullName(Lookup(Table, n).value) == Table[i].name
  {
    TableNamesUnique();
    LookupFindsOwner(Table, i, n);
  }
}
