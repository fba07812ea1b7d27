/** Commands: the `@Command` annotation, the handler methods that carry it,
    the command sender, and the permission rule `checkPermission` implements. */
module Commands {

  datatype Option<+T> = None | Some(value: T)

  /** The `@Command` annotation of a handler method. A `max` of -1 means no upper bound. */
  datatype Command = Command(
    aliases: seq<string>,
    usage: string,
    description: string,
    permissions: seq<string>,
    min: int,
    max: int,
    onlyPlayers: bool)

  /** A reflected handler method. Two methods are the same method exactly when
      they are equal values; `annotation` is what `getAnnotation(Command.class)`
      returns (`None` for a method that carries no `@Command`). */
  datatype Method = Method(id: nat, annotation: Option<Command>)

  /** The object a handler method is invoked on. */
  datatype Instance = Instance(id: nat)

  /** A command sender: a player or the console, with the permissions it holds. */
  datatype Sender = Sender(isPlayer: bool, permissions: set<string>) {
    predicate HasPermission(permission: string) {
      permission in permissions
    }
  }

  /** How `method.invoke` ends: normally, with an `InvocationTargetException`
      whose cause is or is not an `Exception`, with an `IllegalAccessException`, or
      with an unchecked failure of `invoke` itself that no handler clause catches
      (`IllegalArgumentException` for a wrong parameter list or object,
      `NullPointerException` for a null object, `ExceptionInInitializerError`). */
  datatype Invocation = Ok | CauseIsException | CauseNotException | IllegalAccess | Unchecked

  /** How `callCommand` ends: it returns, it throws `InvalidMethodsRuntimeException`,
      or it lets an unchecked failure of `invoke` propagate unchanged. */
  datatype Status = Returned | Thrown(message: string) | Propagated

  /** True when `handler` is annotated and lists `alias` among its aliases. */
  predicate Declares(handler: Method, alias: string) {
    handler.annotation.Some? && alias in handler.annotation.value.aliases
  }

  /** The access rule: no listed permission means everyone may use the command;
      otherwise holding any ONE of the listed permissions is enough. */
  predicate Permitted(command: Command, sender: Sender) {
    |command.permissions| == 0 ||
    exists p :: p in command.permissions && sender.HasPermission(p)
  }

  /** The player-only restriction: a player-only command is refused to the console. */
  predicate CallerKindOk(command: Command, sender: Sender) {
    !command.onlyPlayers || sender.isPlayer
  }

  /** The argument count is out of bounds: fewer than `min`, or more than a `max` other than -1. */
  predicate ArgCountRejected(command: Command, count: int) {
    count < command.min || (command.max != -1 && count > command.max)
  }

  /** A handler the help listing shows to `sender`: one the sender could actually use. */
  predicate Visible(handler: Method, sender: Sender) {
    handler.annotation.Some? &&
    CallerKindOk(handler.annotation.value, sender) &&
    Permitted(handler.annotation.value, sender)
  }

  /** Permission lists are alternatives: the rule for a concatenation of two
      non-empty lists is the OR of the rules for the parts. */
  lemma PermittedSplit(command: Command, left: seq<string>, right: seq<string>, sender: Sender)
    requires command.permissions == left + right && |left| > 0 && |right| > 0
    ensures Permitted(command, sender) <==>
      Permitted(command.(permissions := left), sender) || Permitted(command.(permissions := right), sender)
  {
    if Permitted(command, sender) {
      var p :| p in command.permissions && sender.HasPermission(p);
      assert p in left || p in right;
    }
    if Permitted(command.(permissions := left), sender) {
      var p :| p in left && sender.HasPermission(p);
      assert p in command.permissions;
    }
    if Permitted(command.(permissions := right), sender) {
      var p :| p in right && sender.HasPermission(p);
      assert p in command.permissions;
    }
  }

  /** Holding more permissions never takes access away. */
  lemma PermittedMonotone(command: Command, sender: Sender, more: set<string>)
    requires sender.permissions <= more
    ensures Permitted(command, sender) ==> Permitted(command, sender.(permissions := more))
  {
  }

  /** With the list ["a", "b"], holding only "b" is enough and holding neither is not. */
  lemma PermittedIsOrNotAnd(command: Command)
    requires command.permissions == ["a", "b"]
    ensures Permitted(command, Sender(true, {"b"}))
    ensures !Permitted(command, Sender(true, {}))
  {
    assert "b" in command.permissions;
  }
}
