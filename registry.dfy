/** Registry: what `register` does to the `commands` and `instances` maps,
    as functions of the maps before the call and the class's methods. */
module Registry {
  import opened Commands

  /** `commands.put(alias, handler)` for each alias in turn. */
  function PutAliases(commands: map<string, Method>, aliases: seq<string>, handler: Method): (r: map<string, Method>)
    ensures r.Keys == commands.Keys + set a | a in aliases
    ensures forall a :: a in r ==> r[a] == if a in aliases then handler else commands[a]
    decreases |aliases|
  {
    if |aliases| == 0 then commands
    else
      var init := aliases[..|aliases| - 1];
      assert aliases == init + [aliases[|aliases| - 1]];
      PutAliases(commands, init, handler)[aliases[|aliases| - 1] := handler]
  }

  /** Putting one more alias is one more map update. */
  lemma PutAliasesSnoc(commands: map<string, Method>, aliases: seq<string>, alias: string, handler: Method)
    ensures PutAliases(commands, aliases + [alias], handler) == PutAliases(commands, aliases, handler)[alias := handler]
  {
    assert (aliases + [alias])[..|aliases|] == aliases;
  }

  /** The alias map after the methods in `handlers` have been visited in order;
      a method without `@Command` is skipped. */
  function RegisterCommands(commands: map<string, Method>, handlers: seq<Method>): (r: map<string, Method>)
    ensures commands.Keys <= r.Keys
    ensures forall a :: a in r ==> Declares(r[a], a) || (a in commands && r[a] == commands[a])
    decreases |handlers|
  {
    if |handlers| == 0 then commands
    else
      var before := RegisterCommands(commands, handlers[..|handlers| - 1]);
      var handler := handlers[|handlers| - 1];
      match handler.annotation
      case None => before
      case Some(command) => PutAliases(before, command.aliases, handler)
  }

  /** The instance map after the methods in `handlers` have been visited:
      every annotated one is bound to `obj`, every other entry is kept. */
  function RegisterInstances(instances: map<Method, Instance>, handlers: seq<Method>, obj: Instance): (r: map<Method, Instance>)
    ensures forall h :: h in r <==> h in instances || (h in handlers && h.annotation.Some?)
    ensures forall h :: h in r ==> r[h] == if h in handlers && h.annotation.Some? then obj else instances[h]
    decreases |handlers|
  {
    if |handlers| == 0 then instances
    else
      var init := handlers[..|handlers| - 1];
      var handler := handlers[|handlers| - 1];
      assert handlers == init + [handler];
      var before := RegisterInstances(instances, init, obj);
      if handler.annotation.None? then before else before[handler := obj]
  }

  /** Registering one more method extends the alias map of the earlier ones. */
  lemma RegisterCommandsSnoc(commands: map<string, Method>, handlers: seq<Method>, handler: Method)
    ensures RegisterCommands(commands, handlers + [handler]) ==
      match handler.annotation
      case None => RegisterCommands(commands, handlers)
      case Some(command) => PutAliases(RegisterCommands(commands, handlers), command.aliases, handler)
  {
    assert (handlers + [handler])[..|handlers|] == handlers;
  }

  /** Registering one more method extends the instance map of the earlier ones. */
  lemma RegisterInstancesSnoc(instances: map<Method, Instance>, handlers: seq<Method>, obj: Instance, handler: Method)
    ensures RegisterInstances(instances, handlers + [handler], obj) ==
      if handler.annotation.None? then RegisterInstances(instances, handlers, obj)
      else RegisterInstances(instances, handlers, obj)[handler := obj]
  {
    assert (handlers + [handler])[..|handlers|] == handlers;
  }

  /** `handlers[i]` is the last method of the batch that declares `alias`. */
  ghost predicate LastDeclarer(handlers: seq<Method>, alias: string, i: int) {
    0 <= i < |handlers| && Declares(handlers[i], alias) &&
    forall j :: i < j < |handlers| ==> !Declares(handlers[j], alias)
  }

  /** One step of registration, seen from one alias: the alias changes only
      when the newest method declares it. */
  lemma RegisterStep(commands: map<string, Method>, handlers: seq<Method>, alias: string)
    requires |handlers| > 0
    ensures var before := RegisterCommands(commands, handlers[..|handlers| - 1]);
      var after := RegisterCommands(commands, handlers);
      var handler := handlers[|handlers| - 1];
      (alias in after <==> alias in before || Declares(handler, alias)) &&
      (alias in after ==> after[alias] == if Declares(handler, alias) then handler else before[alias])
  {
  }

  /** Some method of the batch declares `alias`. */
  ghost predicate SomeDeclarer(handlers: seq<Method>, alias: string) {
    exists i :: 0 <= i < |handlers| && Declares(handlers[i], alias)
  }

  /** A declarer among the first n methods, or the n+1-st itself. */
  lemma SomeDeclarerStep(handlers: seq<Method>, alias: string)
    requires |handlers| > 0
    ensures SomeDeclarer(handlers, alias) <==>
      SomeDeclarer(handlers[..|handlers| - 1], alias) || Declares(handlers[|handlers| - 1], alias)
  {
    var n := |handlers| - 1;
    if SomeDeclarer(handlers, alias) {
      var i :| 0 <= i < |handlers| && Declares(handlers[i], alias);
      if i < n {
        assert Declares(handlers[..n][i], alias);
      }
    }
    if SomeDeclarer(handlers[..n], alias) {
      var i :| 0 <= i < n && Declares(handlers[..n][i], alias);
      assert Declares(handlers[i], alias);
    }
  }

  /** After registration an alias is mapped exactly when it was mapped before
      or some method of the batch declares it. */
  lemma {:induction false} RegisterDomain(commands: map<string, Method>, handlers: seq<Method>, alias: string)
    ensures alias in RegisterCommands(commands, handlers) <==> alias in commands || SomeDeclarer(handlers, alias)
    decreases |handlers|
  {
    if |handlers| > 0 {
      RegisterDomain(commands, handlers[..|handlers| - 1], alias);
      RegisterStep(commands, handlers, alias);
      SomeDeclarerStep(handlers, alias);
    }
  }

  /** An alias that no method of the batch declares keeps its previous mapping. */
  lemma {:induction false} RegisterKeeps(commands: map<string, Method>, handlers: seq<Method>, alias: string)
    requires alias in commands && !SomeDeclarer(handlers, alias)
    ensures alias in RegisterCommands(commands, handlers)
    ensures RegisterCommands(commands, handlers)[alias] == commands[alias]
    decreases |handlers|
  {
    if |handlers| > 0 {
      SomeDeclarerStep(handlers, alias);
      RegisterKeeps(commands, handlers[..|handlers| - 1], alias);
      RegisterStep(commands, handlers, alias);
    }
  }

  /** An alias that the batch declares resolves to the last method declaring it. */
  lemma {:induction false} RegisterLastWins(commands: map<string, Method>, handlers: seq<Method>, alias: string, i: int)
    requires LastDeclarer(handlers, alias, i)
    ensures alias in RegisterCommands(commands, handlers)
    ensures RegisterCommands(commands, handlers)[alias] == handlers[i]
    decreases |handlers|
  {
    var n := |handlers| - 1;
    RegisterStep(commands, handlers, alias);
    if i < n {
      assert !Declares(handlers[n], alias);
      assert LastDeclarer(handlers[..n], alias, i);
      RegisterLastWins(commands, handlers[..n], alias, i);
    }
  }

  /** When no two methods of the batch share an alias, every alias of every
      annotated method resolves to that method. */
  lemma RegisterBindsEveryAlias(commands: map<string, Method>, handlers: seq<Method>)
    requires forall i, j, a :: 0 <= i < j < |handlers| && Declares(handlers[i], a) ==> !Declares(handlers[j], a)
    ensures forall i, a :: 0 <= i < |handlers| && Declares(handlers[i], a) ==>
      a in RegisterCommands(commands, handlers) && RegisterCommands(commands, handlers)[a] == handlers[i]
  {
    forall i, a | 0 <= i < |handlers| && Declares(handlers[i], a)
      ensures a in RegisterCommands(commands, handlers) && RegisterCommands(commands, handlers)[a] == handlers[i]
    {
      assert LastDeclarer(handlers, a, i);
      RegisterLastWins(commands, handlers, a, i);
    }
  }

  /** Collisions across two `register` calls are settled per alias, last write
      wins: the aliases the second method declares go to it, and the first
      method keeps the aliases the second does not declare. No error is raised. */
  lemma {:induction false} LastWriteWinsPerAlias(commands: map<string, Method>, first: Method, second: Method)
    requires first.annotation.Some? && second.annotation.Some?
    ensures var after := RegisterCommands(RegisterCommands(commands, [first]), [second]);
      (forall a :: Declares(second, a) ==> a in after && after[a] == second) &&
      (forall a :: Declares(first, a) && !Declares(second, a) ==> a in after && after[a] == first)
  {
    assert [first][..0] == [] && [second][..0] == [];
  }
}
