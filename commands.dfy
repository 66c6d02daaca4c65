/** `Commands` from service/service.go: the "service" command with its three
    flags, extended by whatever subcommands and flags the registered plugins
    contribute, in plugin order. */
module Commands {

  /** A command-line flag: the string flags the command declares itself, or
      any other flag a plugin contributes, known here by its name. */
  datatype Flag =
    | StringFlag(name: string, usage: string, envVar: string)
    | PluginFlag(name: string)

  datatype Command = Command(name: string, usage: string, flags: seq<Flag>, subcommands: seq<Command>)

  /** A registered plugin, by what its `Commands()` and `Flags()` return. */
  datatype Plugin = Plugin(name: string, commands: seq<Command>, flags: seq<Flag>)

  function CommandsOf(p: Plugin): seq<Command> { p.commands }

  function FlagsOf(p: Plugin): seq<Flag> { p.flags }

  /** The flags the service command always has, in this order: three string
      flags with distinct names, each read from a `MICRO_SERVICE_` variable. */
  function BaseFlags(): (f: seq<Flag>)
    ensures |f| == 3 && f[0].name == "name" && f[1].name == "address" && f[2].name == "endpoint"
    ensures forall i, j :: 0 <= i < j < |f| ==> f[i].name != f[j].name
    ensures forall i :: 0 <= i < |f| ==> f[i].StringFlag? && "MICRO_SERVICE_" <= f[i].envVar
  {
    [StringFlag("name", "Name of the service", "MICRO_SERVICE_NAME"),
     StringFlag("address", "Address of the service", "MICRO_SERVICE_ADDRESS"),
     StringFlag("endpoint", "The local service endpoint. Defaults to localhost:9090", "MICRO_SERVICE_ENDPOINT")]
  }

  /** What the plugins contribute, one part of each, concatenated in plugin
      order: the result opens with the first plugin's part. */
  function Gather<T>(plugins: seq<Plugin>, part: Plugin -> seq<T>): (r: seq<T>)
    ensures plugins != [] ==> part(plugins[0]) <= r
  {
    if plugins == [] then [] else part(plugins[0]) + Gather(plugins[1..], part)
  }

  /** Nothing is gathered exactly when no plugin contributes anything. */
  lemma {:induction false} GatherNothing<T>(plugins: seq<Plugin>, part: Plugin -> seq<T>)
    ensures Gather(plugins, part) == [] <==> forall i :: 0 <= i < |plugins| ==> part(plugins[i]) == []
  {
    if plugins != [] {
      GatherNothing(plugins[1..], part);
      assert forall i :: 1 <= i < |plugins| ==> plugins[i] == plugins[1..][i - 1];
    }
  }

  lemma {:induction false} GatherAppend<T>(a: seq<Plugin>, b: seq<Plugin>, part: Plugin -> seq<T>)
    ensures Gather(a + b, part) == Gather(a, part) + Gather(b, part)
  {
    if a == [] {
      assert a + b == b;
    } else {
      assert (a + b)[0] == a[0];
      assert (a + b)[1..] == a[1..] + b;
      GatherAppend(a[1..], b, part);
    }
  }

  /** Taking one more plugin appends its part. */
  lemma {:induction false} GatherSnoc<T>(plugins: seq<Plugin>, i: nat, part: Plugin -> seq<T>)
    requires i < |plugins|
    ensures Gather(plugins[..i + 1], part) == Gather(plugins[..i], part) + part(plugins[i])
  {
    assert plugins[..i + 1] == plugins[..i] + [plugins[i]];
    GatherAppend(plugins[..i], [plugins[i]], part);
    assert Gather([plugins[i]], part) == part(plugins[i]) + Gather([], part);
  }

  /** Plugin `i`'s part sits after the parts of all earlier plugins and before
      the parts of all later ones. */
  lemma {:induction false} GatherAt<T>(plugins: seq<Plugin>, i: nat, part: Plugin -> seq<T>)
    requires i < |plugins|
    ensures Gather(plugins, part) ==
              Gather(plugins[..i], part) + part(plugins[i]) + Gather(plugins[i + 1..], part)
  {
    var rest := [plugins[i]] + plugins[i + 1..];
    assert plugins == plugins[..i] + rest;
    GatherAppend(plugins[..i], rest, part);
    assert rest[0] == plugins[i] && rest[1..] == plugins[i + 1..];
  }

  /** Nothing but the plugins' own parts is gathered, and all of them are. */
  lemma {:induction false} GatherMembers<T>(plugins: seq<Plugin>, part: Plugin -> seq<T>, x: T)
    ensures x in Gather(plugins, part) <==> exists i :: 0 <= i < |plugins| && x in part(plugins[i])
  {
    if plugins != [] {
      GatherMembers(plugins[1..], part, x);
      if x in part(plugins[0]) {
        assert 0 < |plugins| && x in part(plugins[0]);
      }
      if exists i :: 0 <= i < |plugins| && x in part(plugins[i]) {
        var i :| 0 <= i < |plugins| && x in part(plugins[i]);
        if i > 0 {
          assert plugins[1..][i - 1] == plugins[i];
        }
      }
      if exists k :: 0 <= k < |plugins| - 1 && x in part(plugins[1..][k]) {
        var k :| 0 <= k < |plugins| - 1 && x in part(plugins[1..][k]);
        assert plugins[k + 1] == plugins[1..][k];
      }
    }
  }

  /** A plugin that contributes nothing leaves the result as if it were absent. */
  lemma {:induction false} GatherSkipsEmpty<T>(plugins: seq<Plugin>, i: nat, part: Plugin -> seq<T>)
    requires i < |plugins| && part(plugins[i]) == []
    ensures Gather(plugins, part) == Gather(plugins[..i] + plugins[i + 1..], part)
  {
    GatherAt(plugins, i, part);
    GatherAppend(plugins[..i], plugins[i + 1..], part);
  }

  /** The service command `Commands` builds: its base flags followed by the
      plugins' flags, and the plugins' subcommands. */
  method Commands(plugins: seq<Plugin>) returns (cmds: seq<Command>)
    ensures |cmds| == 1
    ensures cmds[0].name == "service" && cmds[0].usage == "Run a micro service"
    ensures cmds[0].flags == BaseFlags() + Gather(plugins, FlagsOf)
    ensures cmds[0].subcommands == Gather(plugins, CommandsOf)
  {
    var command := Command("service", "Run a micro service", BaseFlags(), []);
    for i := 0 to |plugins|
      invariant command.name == "service" && command.usage == "Run a micro service"
      invariant command.subcommands == Gather(plugins[..i], CommandsOf)
      invariant command.flags == BaseFlags() + Gather(plugins[..i], FlagsOf)
    {
      GatherSnoc(plugins, i, CommandsOf);
      GatherSnoc(plugins, i, FlagsOf);
      var cmds := plugins[i].commands;
      if |cmds| > 0 {
        command := command.(subcommands := command.subcommands + cmds);
      }
      var flags := plugins[i].flags;
      if |flags| > 0 {
        command := command.(flags := command.flags + flags);
      }
    }
    assert plugins[..|plugins|] == plugins;
    cmds := [command];
  }

  /** The flag list starts with name, address and endpoint, in that order, and
      every later flag is one a plugin contributed. */
  lemma {:induction false} CommandFlags(plugins: seq<Plugin>, flags: seq<Flag>)
    requires flags == BaseFlags() + Gather(plugins, FlagsOf)
    ensures |flags| >= 3 && flags[0].name == "name" && flags[1].name == "address" && flags[2].name == "endpoint"
    ensures forall k :: 3 <= k < |flags| ==> exists i :: 0 <= i < |plugins| && flags[k] in plugins[i].flags
  {
    forall k | 3 <= k < |flags|
      ensures exists i :: 0 <= i < |plugins| && flags[k] in plugins[i].flags
    {
      assert flags[k] in Gather(plugins, FlagsOf);
      GatherMembers(plugins, FlagsOf, flags[k]);
    }
  }
}
