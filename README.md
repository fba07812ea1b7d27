# CommandManager in Dafny

A model of the command registry and dispatcher of `CommandManager`, a small
library for Bukkit plugins. Handler methods carry a `@Command` annotation
holding aliases, a usage text, a description, a permission list, minimum and
maximum argument counts, and a player-only flag. The manager does four things:

- `register` puts every alias of every annotated method of a class into an
  alias map. It also records the object the method runs on.
- `checkPermission` lets a sender use a command when the command lists no
  permission, or when the sender holds at least one of the listed permissions.
- `callCommand` lower-cases the name and looks it up. It then checks the
  argument count, the player-only flag and the permission, in that order, and
  stops at the first check that fails. Last, it invokes the handler and sorts
  any failure into "Invalid arguments" or an `InvalidMethodsRuntimeException`.
- `showHelpByPermission` walks the alias map and sends one
  `usage description` line for each distinct handler the sender may use.

Files:

- `text.dfy` (module `Text`): lower-casing, as the lookup uses it.
- `commands.dfy` (module `Commands`): the annotation, handler methods, senders,
  invocation outcomes, and the permission rule with its lemmas.
- `registry.dfy` (module `Registry`): the effect of `register` as functions of
  the maps before the call, plus lemmas on how each alias resolves afterwards.
- `help.dfy` (module `Help`): what a help listing holds, and the proof that two
  listings differ at most in order.
- `dispatch.dfy` (module `Dispatch`): the class `CommandManager`. Its
  `commands` and `instances` map fields are updated in place by `Register`.
  Its methods have the loops of the Java code and are proved against the
  functions above.

The messages sent to the sender become the sequence of lines a method returns.
`method.invoke` becomes a function parameter that returns an `Invocation`
outcome. `callCommand` also reports whether `method.invoke` was called, and
whether the call returned, threw `InvalidMethodsRuntimeException`, or let an
unchecked failure of `invoke` propagate.

Points where the code behaves in a way a reader may not expect:

- Aliases are stored exactly as declared, but the lookup lower-cases its
  input. So an alias with an upper-case letter can never be reached
  (`Text.UpperNeverMatches`).
- The alias map is a `HashMap`, so help lines come out in an unspecified
  order. The model picks the next entry arbitrarily, and proves only which
  handlers are shown and that any two listings are permutations of each other.
- The permission list is an array and may repeat entries; only which
  permissions it holds matters.
- Every help listing starts with two header lines: the plugin name and
  version, then a blank line.
- `callCommand` returns nothing: it reports its outcome only by sending
  messages and by throwing. The messages are "Unknown command",
  "invalidArguments", "Not a player", "No permission" and "Invalid arguments".
- The one-argument constructor leaves `baseCommand` null. Java's string
  concatenation then puts the text `null` in front of every usage message.
  `UsageMessage` models this.

## Model

| member | source | states |
|---|---|---|
| `Text.ToLower` | src/main/java/com/github/sarhatabaot/commandmanager/CommandManager.java:116 | lower-casing keeps the length, maps each character on its own, leaves no upper-case letter, and leaves a string without upper-case letters unchanged |
| `Text.UpperNeverMatches` | src/main/java/com/github/sarhatabaot/commandmanager/CommandManager.java:79-116 | no lower-cased command name equals an alias that holds an upper-case letter, so such an alias is never resolved |
| `Commands.PermittedSplit` | src/main/java/com/github/sarhatabaot/commandmanager/CommandManager.java:102-113 | splitting a permission list into two non-empty parts makes access the OR of the two parts |
| `Commands.PermittedMonotone` | src/main/java/com/github/sarhatabaot/commandmanager/CommandManager.java:107-111 | a sender that gains permissions never loses access |
| `Commands.PermittedIsOrNotAnd` | src/main/java/com/github/sarhatabaot/commandmanager/CommandManager.java:102-113 | with the list ["a", "b"], holding only "b" grants access and holding neither does not |
| `Registry.PutAliases` | src/main/java/com/github/sarhatabaot/commandmanager/CommandManager.java:78-80 | after putting a list of aliases, the keys are the old keys plus the aliases; each alias maps to the handler and every other key keeps its value |
| `Registry.RegisterCommands` | src/main/java/com/github/sarhatabaot/commandmanager/CommandManager.java:71-80 | registration only adds aliases, and every entry afterwards is either an alias bound to a method that declares it or an entry kept from before |
| `Registry.RegisterInstances` | src/main/java/com/github/sarhatabaot/commandmanager/CommandManager.java:71-82 | afterwards, exactly the old methods and the annotated methods of the class are keys; each annotated method maps to the given object and every other entry is unchanged |
| `Registry.RegisterDomain` | src/main/java/com/github/sarhatabaot/commandmanager/CommandManager.java:71-82 | after `register` an alias is mapped if and only if it was mapped before or some annotated method of the class declares it |
| `Registry.RegisterKeeps` | src/main/java/com/github/sarhatabaot/commandmanager/CommandManager.java:78-80 | an alias that no method of the class declares keeps its previous mapping |
| `Registry.RegisterLastWins` | src/main/java/com/github/sarhatabaot/commandmanager/CommandManager.java:71-80 | an alias declared in the class maps to the last method, in `getMethods` order, that declares it |
| `Registry.RegisterBindsEveryAlias` | src/main/java/com/github/sarhatabaot/commandmanager/CommandManager.java:70-83 | when no two methods of the class share an alias, each alias of each annotated method maps to that method |
| `Registry.LastWriteWinsPerAlias` | src/main/java/com/github/sarhatabaot/commandmanager/CommandManager.java:78-80 | across two `register` calls, the second method takes the aliases it declares and the first keeps the rest, with no error |
| `Help.ListingsArePermutations` | src/main/java/com/github/sarhatabaot/commandmanager/CommandManager.java:86-99 | any two listings for the same alias map and sender show the same handlers, each once, so they have the same length and are permutations |
| `Help.ListingLinesArePermutations` | src/main/java/com/github/sarhatabaot/commandmanager/CommandManager.java:89-99 | any two listings for the same alias map and sender emit the same help lines up to order |
| `Dispatch.CommandManager.constructor` | src/main/java/com/github/sarhatabaot/commandmanager/CommandManager.java:30-35 | starts with empty maps and a null base command, and satisfies the class invariant |
| `Dispatch.CommandManager.WithBaseCommand` | src/main/java/com/github/sarhatabaot/commandmanager/CommandManager.java:37-43 | starts with empty maps and the given base command; the colour arguments are dropped |
| `Dispatch.CommandManager.UsageMessage` | src/main/java/com/github/sarhatabaot/commandmanager/CommandManager.java:129 | the usage message begins with the base command, or with the text "null" when none was given, and ends with the primary alias followed by the usage text, with nothing else in between |
| `Dispatch.CommandManager.Header` | src/main/java/com/github/sarhatabaot/commandmanager/CommandManager.java:87-88 | the help header is two lines: a newline followed by the plugin name, a space and the version, then a line holding only a newline |
| `Dispatch.CommandManager.Register` | src/main/java/com/github/sarhatabaot/commandmanager/CommandManager.java:70-83 | the new alias map and instance map are the registration functions of the old maps and the class's methods; the invariant is kept (each alias maps to a method declaring it, and each such method has an instance) |
| `Dispatch.CommandManager.CheckPermission` | src/main/java/com/github/sarhatabaot/commandmanager/CommandManager.java:102-113 | returns true if and only if the list is empty or the sender holds at least one listed permission |
| `Dispatch.CommandManager.ShowHelpByPermission` | src/main/java/com/github/sarhatabaot/commandmanager/CommandManager.java:85-100 | output is the two header lines, then one line per handler reachable through an alias that passes the player-only and permission checks, each handler once and nothing else; each line is the usage, a space, then the description (line 97; colour codes left out); the maps are not changed |
| `Dispatch.CommandManager.HelpOutputsArePermutations` | src/main/java/com/github/sarhatabaot/commandmanager/CommandManager.java:85-99 | any two help outputs for the same state and sender hold the same lines, each as often, differing at most in order |
| `Dispatch.CommandManager.CallCommand` | src/main/java/com/github/sarhatabaot/commandmanager/CommandManager.java:115-161 | unknown name: "Unknown command" then a help listing, nothing invoked. Otherwise the stages run in order: a count below `min` or above a `max` other than -1 sends "invalidArguments" and the usage; a player-only command from the console sends "Not a player"; missing permission sends "No permission". `method.invoke` is called if and only if all stages pass. Then: a target exception whose cause is an `Exception` sends "Invalid arguments" and the usage; any other cause, or an illegal access, throws `InvalidMethodsRuntimeException` and sends nothing; an unchecked failure of `invoke` itself propagates unchanged and sends nothing |

## Left out

- Reflection: `getMethods`, `isAnnotationPresent` and `getAnnotation` are not modelled. The class's methods are a sequence of `Method` values, in the order `getMethods` would return them. Each value's annotation is a field, or `None` when there is no `@Command`.
- Bukkit types: `CommandSender` and `Player` become a record with a player flag and a set of held permissions. How Bukkit decides `hasPermission` (operators, defaults) is not modelled. `JavaPlugin` is reduced to the name and version shown in the help header.
- Colours: the `ChatColor` fields, their getters and setters, and the colour codes in help lines are presentation only, so they are left out. The four-argument constructor ignores its colour arguments anyway.
- Logging: the `Logger.warning` calls are output that does not affect control flow.
- Unchecked failures of `invoke`: `IllegalArgumentException`, `NullPointerException` and `ExceptionInInitializerError` are all one outcome, `Unchecked`, which `callCommand` lets propagate. The model does not say which of them occurs or when.
- Handler bodies: what a handler does, including any messages it sends itself, is not modelled. Only how its invocation ends is modelled.
- `Text.ToLower`: only the ASCII letters are mapped. `String.toLowerCase` also maps other Unicode letters and depends on the default locale.
- Help order: which entry of the `HashMap` comes next is an arbitrary choice, so the model makes no claim about the order of help lines.
- Null arguments: a null name always makes the Java code throw `NullPointerException`. A null sender or argument array may throw too, depending on the path taken: an unknown name never reads the arguments, and a handler that is not player-only and has no permissions reaches `invoke` without touching the sender. The model's values are never null.
- Concurrency: the Java class has no synchronisation. The model is sequential.
