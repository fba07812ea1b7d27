/** Dispatch: the `CommandManager` object — its alias and instance maps, and the
    operations that fill them (`register`), read them (`showHelpByPermission`)
    and dispatch through them (`callCommand`). Messages sent to the sender are
    returned as the sequence of lines in the order they are sent. */
module Dispatch {
  import opened Text
  import opened Commands
  import opened Registry
  import opened Help

  /** The message of the `InvalidMethodsRuntimeException` that `callCommand` throws. */
  const InvalidMethods := "Invalid methods on command!"

  class CommandManager {
    /** alias -> handler method, aliases stored exactly as declared. */
    var commands: map<string, Method>
    /** handler method -> the object it is invoked on. */
    var instances: map<Method, Instance>
    /** The prefix of usage messages; `None` stands for Java's null. */
    var baseCommand: Option<string>
    /** The plugin's name and version, shown in the help header. */
    const pluginName: string
    const pluginVersion: string

    /** Every alias maps to an annotated method that declares that alias, and
        every method reachable through an alias has an instance to run on. */
    ghost predicate Valid()
      reads this
    {
      (forall a :: a in commands ==> Declares(commands[a], a)) &&
      (forall a :: a in commands ==> commands[a] in instances)
    }

    /** `new CommandManager(plugin)`: empty maps and no base command. */
    constructor (pluginName: string, pluginVersion: string)
      ensures Valid()
      ensures commands == map[] && instances == map[] && baseCommand == None
      ensures this.pluginName == pluginName && this.pluginVersion == pluginVersion
    {
      this.pluginName := pluginName;
      this.pluginVersion := pluginVersion;
      commands := map[];
      instances := map[];
      baseCommand := None;
    }

    /** `new CommandManager(plugin, baseCommand, usageColor, descriptionColor)`;
        the two colours are not stored. */
    constructor WithBaseCommand(pluginName: string, pluginVersion: string, baseCommand: string)
      ensures Valid()
      ensures commands == map[] && instances == map[] && this.baseCommand == Some(baseCommand)
      ensures this.pluginName == pluginName && this.pluginVersion == pluginVersion
    {
      this.pluginName := pluginName;
      this.pluginVersion := pluginVersion;
      commands := map[];
      instances := map[];
      this.baseCommand := Some(baseCommand);
    }

    /** The text `baseCommand + aliases[0] + usage`, as Java's string concatenation
        builds it: a null base command contributes the four letters "null". */
    function UsageMessage(command: Command): (r: string)
      reads this
      requires |command.aliases| > 0
      ensures baseCommand.None? ==> |r| >= 4 && r[..4] == "null"
      ensures baseCommand.Some? ==> |r| >= |baseCommand.value| && r[..|baseCommand.value|] == baseCommand.value
      ensures |r| == (if baseCommand.None? then 4 else |baseCommand.value|) + |command.aliases[0]| + |command.usage|
      ensures var tail := command.aliases[0] + command.usage;
        |r| >= |tail| && r[|r| - |tail|..] == tail
    {
      (match baseCommand case None => "null" case Some(b) => b) + command.aliases[0] + command.usage
    }

    /** The two lines that open every help listing. */
    function Header(): (r: seq<string>)
      reads this
      ensures |r| == 2 && r[1] == "\n"
      ensures r[0] == "\n" + pluginName + " " + pluginVersion
    {
      ["\n" + pluginName + " " + pluginVersion, "\n"]
    }

    /** `lines` is a help listing for `sender`: the header, then one line for each
        usable handler, each handler once, in some order. */
    ghost predicate HelpOutput(lines: seq<string>, sender: Sender)
      reads this
    {
      exists shown :: IsListing(commands, shown, sender) && Annotated(shown) &&
        lines == Header() + HelpLines(shown)
    }

    /** `register(cls, obj)`, where `handlers` are the methods of `cls` in the order
        `getMethods` returns them. */
    method Register(handlers: seq<Method>, obj: Instance)
      requires Valid()
      modifies this`commands, this`instances
      ensures Valid()
      ensures commands == RegisterCommands(old(commands), handlers)
      ensures instances == RegisterInstances(old(instances), handlers, obj)
    {
      var i := 0;
      while i < |handlers|
        invariant 0 <= i <= |handlers|
        invariant Valid()
        invariant commands == RegisterCommands(old(commands), handlers[..i])
        invariant instances == RegisterInstances(old(instances), handlers[..i], obj)
      {
        var handler := handlers[i];
        assert handlers[..i + 1] == handlers[..i] + [handler];
        RegisterCommandsSnoc(old(commands), handlers[..i], handler);
        RegisterInstancesSnoc(old(instances), handlers[..i], obj, handler);
        if handler.annotation.None? {
          i := i + 1;
          continue;
        }
        var command := handler.annotation.value;
        ghost var before, bound := commands, instances;
        var j := 0;
        while j < |command.aliases|
          invariant 0 <= j <= |command.aliases|
          invariant instances == bound
          invariant commands == PutAliases(before, command.aliases[..j], handler)
          invariant forall a :: a in commands ==> Declares(commands[a], a)
          invariant forall a :: a in commands ==> commands[a] in instances || commands[a] == handler
        {
          assert command.aliases[..j + 1] == command.aliases[..j] + [command.aliases[j]];
          PutAliasesSnoc(before, command.aliases[..j], command.aliases[j], handler);
          commands := commands[command.aliases[j] := handler];
          j := j + 1;
        }
        assert command.aliases[..j] == command.aliases;
        instances := instances[handler := obj];
        i := i + 1;
      }
      assert handlers[..i] == handlers;
    }

    /** `checkPermission(command, sender)`. */
    static method CheckPermission(command: Command, sender: Sender) returns (hasPermission: bool)
      ensures hasPermission <==> Permitted(command, sender)
    {
      hasPermission := false;
      if |command.permissions| == 0 {
        hasPermission := true;
      }
      var i := 0;
      while i < |command.permissions|
        invariant 0 <= i <= |command.permissions|
        invariant hasPermission <==>
          |command.permissions| == 0 || exists k :: 0 <= k < i && sender.HasPermission(command.permissions[k])
      {
        if sender.HasPermission(command.permissions[i]) {
          hasPermission := true;
        }
        i := i + 1;
      }
    }

    /** `showHelpByPermission(sender)`: the entries of the alias map are visited in
        an arbitrary order, each handler is considered once, and a line is sent
        for each one the sender may use. Neither map changes. */
    method ShowHelpByPermission(sender: Sender) returns (out: seq<string>)
      requires Valid()
      ensures HelpOutput(out, sender)
    {
      var seen: seq<Method> := [];
      ghost var shown: seq<Method> := [];
      ghost var visited: set<string> := {};
      out := Header();
      var remaining := commands.Keys;
      while remaining != {}
        invariant visited <= commands.Keys && remaining == commands.Keys - visited
        invariant Distinct(seen) && Distinct(shown) && Annotated(shown)
        invariant forall h :: h in seen <==> exists a :: a in visited && commands[a] == h
        invariant forall h :: h in shown <==> h in seen && Visible(h, sender)
        invariant out == Header() + HelpLines(shown)
        decreases remaining
      {
        var alias :| alias in remaining;
        var handler := commands[alias];
        if handler !in seen {
          seen := seen + [handler];
          var command := handler.annotation.value;
          var permitted := CheckPermission(command, sender);
          if !((command.onlyPlayers && !sender.isPlayer) || !permitted) {
            HelpLinesAppend(shown, [handler]);
            out := out + [HelpLine(command)];
            shown := shown + [handler];
          }
        }
        remaining := remaining - {alias};
        visited := visited + {alias};
      }
      assert IsListing(commands, shown, sender);
    }

    /** Two help outputs for the same state and sender hold the same lines,
        each as often, in possibly different orders. */
    lemma HelpOutputsArePermutations(a: seq<string>, b: seq<string>, sender: Sender)
      requires HelpOutput(a, sender) && HelpOutput(b, sender)
      ensures multiset(a) == multiset(b)
    {
      var sa :| IsListing(commands, sa, sender) && Annotated(sa) && a == Header() + HelpLines(sa);
      var sb :| IsListing(commands, sb, sender) && Annotated(sb) && b == Header() + HelpLines(sb);
      ListingLinesArePermutations(commands, sa, sb, sender);
    }

    /** `callCommand(cmdName, sender, args)`. `invoke` stands for `method.invoke`;
        `invoked` tells whether `method.invoke` was called at all. */
    method CallCommand(cmdName: string, sender: Sender, args: seq<string>,
                       invoke: (Method, Instance, Sender, seq<string>) -> Invocation)
      returns (out: seq<string>, invoked: bool, status: Status)
      requires Valid()
      // an unknown name: "Unknown command", then the help listing, and nothing more
      ensures ToLower(cmdName) !in commands ==>
        !invoked && status == Returned && |out| > 0 && out[0] == "Unknown command" &&
        HelpOutput(out[1..], sender)
      // the stages in order: argument count, then caller kind, then permission
      ensures ToLower(cmdName) in commands ==>
        var command := commands[ToLower(cmdName)].annotation.value;
        |command.aliases| > 0 &&
        (ArgCountRejected(command, |args|) ==>
          !invoked && status == Returned && out == ["invalidArguments", UsageMessage(command)]) &&
        (!ArgCountRejected(command, |args|) && !CallerKindOk(command, sender) ==>
          !invoked && status == Returned && out == ["Not a player"]) &&
        (!ArgCountRejected(command, |args|) && CallerKindOk(command, sender) && !Permitted(command, sender) ==>
          !invoked && status == Returned && out == ["No permission"])
      // the handler runs exactly when the name resolves and every stage passes
      ensures invoked <==> (ToLower(cmdName) in commands &&
        var command := commands[ToLower(cmdName)].annotation.value;
        !ArgCountRejected(command, |args|) && CallerKindOk(command, sender) && Permitted(command, sender))
      // how a finished or failed invocation is reported
      ensures invoked ==>
        var handler := commands[ToLower(cmdName)];
        var command := handler.annotation.value;
        match invoke(handler, instances[handler], sender, args)
        case Ok => status == Returned && out == []
        case CauseIsException => status == Returned && out == ["Invalid arguments", UsageMessage(command)]
        case CauseNotException => status == Thrown(InvalidMethods) && out == []
        case IllegalAccess => status == Thrown(InvalidMethods) && out == []
        case Unchecked => status == Propagated && out == []
    {
      out, invoked, status := [], false, Returned;
      var name := ToLower(cmdName);
      if name !in commands {
        var help := ShowHelpByPermission(sender);
        out := ["Unknown command"] + help;
        assert out[1..] == help;
        return;
      }
      var handler := commands[name];
      var command := handler.annotation.value;

      if !(command.min <= |args| && (command.max == -1 || command.max >= |args|)) {
        out := ["invalidArguments", UsageMessage(command)];
        return;
      }

      if command.onlyPlayers && !sender.isPlayer {
        out := ["Not a player"];
        return;
      }

      var permitted := CheckPermission(command, sender);
      if !permitted {
        out := ["No permission"];
        return;
      }

      invoked := true;
      var result := invoke(handler, instances[handler], sender, args);
      match result
      case Ok =>
      case IllegalAccess =>
        status := Thrown(InvalidMethods);
      case CauseIsException =>
        out := ["Invalid arguments", UsageMessage(command)];
      case CauseNotException =>
        status := Thrown(InvalidMethods);
      case Unchecked =>
        status := Propagated;
    }
  }
}
