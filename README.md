# Log-level filter for the global console

This project models, in Dafny, the verbosity filter of `src/log-level/log-level.ts`.
`setLogLevel(param)` takes an arbitrary argument and resolves it to one of eight
levels (`all, trace, debug, info, log, warn, error, silence`). It announces the
result through the original `console.info`. It then replaces the six console
methods `trace, debug, info, log, warn, error` by gates. After that, a call to
`console[m](...)` reaches the original function only when the rank of
`m`'s level is at least the rank of the effective level. In this
comparison the method's level is normalized (`log` ranks as `info`); the effective level is not.

Everything is in one module, `LogLevel` (`log_level.dfy`), in the order of the source file:

- **Level registry.** `Level` is the eight tokens. `ConsoleMethod` is the subset without the two
  sentinels, as in the source's union types. The lists `ConsoleMethods` and `LogLevels` are
  the two source lists. `Normalize` is `normalizeLogLevel`. `ShouldLog` compares ranks.
  `Rank` is a rank table, and a lemma proves that it equals `LOG_LEVELS.indexOf` (`IndexOf`,
  a model of `Array.prototype.indexOf`).
- **Resolution.** `JsValue` is an argument: `Undefined`, a string, a value that a template
  literal can render (null, number, object, array), which carries that rendering, or
  `Unrenderable`: a Symbol, or an object with no primitive conversion such as
  `Object.create(null)`, whose rendering throws a `TypeError`. `Resolve` gives the effective
  level, whether the input was valid, and the one message; for `Unrenderable` it gives
  nothing, because building the warning throws.
- **Console table.** Class `Console` has three fields:
  - a `snapshot` of which original functions exist, a `const` fixed at construction;
  - the mutable `table` of live bindings: `Native` before any configuration, otherwise a
    `Gate` closed over the method's normalized level and the effective level;
  - an `output` trace. Every invocation that reaches an original function is appended to it.

  `SetLogLevel` overwrites all six entries in a loop. `Call` is one invocation of a live
  entry. A gate appends to the trace directly, because it forwards to the snapshot. No gate
  can reach another gate.

The source compares a method's normalized level with the effective level *as given*. It does
not normalize the effective level (src/log-level/log-level.ts:65), although the comment at
src/log-level/log-level.ts:36 calls `log` "same level as info". The model follows the code.
Under `setLogLevel('log')`, both `info` and `log` are suppressed, and forwarding starts at
`warn` (`LogLevelSuppressesInfoAndLog`, `ActiveFromMethod`).

An `undefined` argument takes the default parameter `'all'`, so it is a valid `all` with the
confirmation message (src/log-level/log-level.ts:48). `null` and the other non-strings are
invalid. Building the warning for an `Unrenderable` argument throws at
src/log-level/log-level.ts:59. `_console.info(levelMessage)` (src/log-level/log-level.ts:60) has
no optional chaining, so when the snapshot has no `info` that call throws too. In both cases
`setLogLevel` throws before it installs anything; the model returns `threw` and leaves the
state unchanged.

Inputs and outputs are parameters: the host console's contents are the constructor argument,
and the console's output is the `output` trace.

## Model

| member | source | states |
|---|---|---|
| `LogLevel.ConsoleMethods` | src/log-level/log-level.ts:5 | no contract; defined as the six gated methods `trace, debug, info, log, warn, error`, in that order |
| `LogLevel.LogLevels` | src/log-level/log-level.ts:6 | no contract; defined as the eight levels `all, trace, debug, info, log, warn, error, silence`, lowest rank first |
| `LogLevel.Token` | src/log-level/log-level.ts:1-2 | no contract; defined as the lower-case literal that names each level |
| `LogLevel.LevelOfToken` | src/log-level/log-level.ts:51 | a string is a member of `LOG_LEVELS` exactly when some level has it as its token; the level found has that token |
| `LogLevel.TokenRoundTrip` | src/log-level/log-level.ts:2 | looking up a level's own token gives back that level, so the eight tokens are distinct |
| `LogLevel.IndexOf` | src/log-level/log-level.ts:25 | `indexOf` is -1 exactly when the element is absent; otherwise it is a position holding the element with no earlier occurrence |
| `LogLevel.IndexFrom` | src/log-level/log-level.ts:25 | the same search started at position `k`: -1 iff no occurrence at or after `k`, else the first one |
| `LogLevel.Rank` | src/log-level/log-level.ts:6 | no contract; defined as the position of each level in the list `all, trace, debug, info, log, warn, error, silence` |
| `LogLevel.RankIsIndexOf` | src/log-level/log-level.ts:6 | for every level, the rank used in comparisons equals its index in `LOG_LEVELS` (never -1) |
| `LogLevel.Normalize` | src/log-level/log-level.ts:15 | the result is never `log`; it is the input itself, except that `log` becomes `info` |
| `LogLevel.ShouldLog` | src/log-level/log-level.ts:24-26 | no contract; defined as: the level's rank is at least the threshold's rank |
| `LogLevel.NormalizeIdempotent` | src/log-level/log-level.ts:15 | normalizing twice is normalizing once |
| `LogLevel.NormalizeIdentifies` | src/log-level/log-level.ts:8-15 | two levels normalize alike iff they are equal or both are in `{info, log}` |
| `LogLevel.ShouldLogTotalPreorder` | src/log-level/log-level.ts:24-26 | `shouldLog` is reflexive, total and transitive |
| `LogLevel.ShouldLogSentinels` | src/log-level/log-level.ts:31-39 | every level passes `all`; only `silence` passes `silence` |
| `LogLevel.ToLower` | src/log-level/log-level.ts:49 | same length; each character is lower-cased (ASCII letters only) |
| `LogLevel.ToUpper` | src/log-level/log-level.ts:58 | same length; each character is upper-cased (ASCII letters only) |
| `LogLevel.UpperOfLower` | src/log-level/log-level.ts:49-58 | upper-casing the lower-case form gives the upper-case form of the input itself |
| `LogLevel.EqualIgnoringCaseLower` | src/log-level/log-level.ts:49 | strings that differ only in the case of ASCII letters have the same lower-case form |
| `LogLevel.ToLowerIdempotent` | src/log-level/log-level.ts:49 | lower-casing twice is lower-casing once |
| `LogLevel.Render` | src/log-level/log-level.ts:59 | the template-literal rendering fails exactly for an `Unrenderable` value; a string renders as itself |
| `LogLevel.InvalidMessage` | src/log-level/log-level.ts:59 | no contract; defined as the warning text `Invalid log level "<raw>" provided. Defaulting to: ALL` |
| `LogLevel.Resolve` | src/log-level/log-level.ts:48-59 | there is no result (the warning throws) exactly for an `Unrenderable` argument; `undefined` is a valid `all` with "Log level set to: ALL"; a rendered non-string is invalid; a string is valid iff its lower-case form is a level token, and then the level has that token and the message is the prefix plus the input upper-cased; every invalid input gives `all` and "Invalid log level "<raw>" provided. Defaulting to: ALL" |
| `LogLevel.ResolveToken` | src/log-level/log-level.ts:49-58 | a string naming a level in any letter case resolves validly to that level, with the confirmation message |
| `LogLevel.ResolveCaseInsensitive` | src/log-level/log-level.spec.ts:78-81 | strings equal up to case resolve to the same level and validity, and when valid to the same message |
| `LogLevel.ResolveInvalidStrings` | src/log-level/log-level.spec.ts:121-148 | `''` and `'INVALID_LEVEL'` fall back to `all`, invalid, with the warning naming the raw string |
| `LogLevel.Forwards` | src/log-level/log-level.ts:63-65 | no contract; defined as `shouldLog` of the method's normalized level against the effective level as given |
| `LogLevel.ActiveFrom` | src/log-level/log-level.spec.ts:106-112 | no contract; defined as the position in `ConsoleMethods` from which methods forward under each effective level |
| `LogLevel.ForwardsSuffix` | src/log-level/log-level.ts:62-65 | under every effective level, a method forwards iff its position in `CONSOLE_METHODS` is at least `ActiveFrom`, so the forwarding methods are always a suffix |
| `LogLevel.ActiveFromMethod` | src/log-level/log-level.spec.ts:106-119 | for `trace`, `debug`, `info`, `warn` and `error`, forwarding starts at that method. `all` forwards all six and `silence` none. Under `log` forwarding starts at `warn` |
| `LogLevel.InfoEqualsLogUnderInfo` | src/log-level/log-level.spec.ts:83-99 | under `info`, both `info` and `log` forward, `trace` and `debug` do not, and `warn` and `error` do |
| `LogLevel.LogLevelSuppressesInfoAndLog` | src/log-level/log-level.ts:63-65 | under `log`, neither `info` nor `log` forwards, because the effective level is not normalized; `warn` and `error` do |
| `LogLevel.InstalledTable` | src/log-level/log-level.ts:62-66 | one configuration binds every one of the six methods to a gate closed over that method's normalized level and the effective level |
| `LogLevel.Passes` | src/log-level/log-level.ts:65 | no contract; defined as: the host's own function always gets through, and a gate gets through iff `shouldLog` of its two levels holds |
| `LogLevel.InstalledGatePasses` | src/log-level/log-level.ts:65 | an installed gate lets a call through iff the method's normalized rank is at least the effective level's rank |
| `LogLevel.Console.constructor` | src/log-level/log-level.ts:4 | the snapshot records which originals exist, every live entry is the host's own function and nothing has been output |
| `LogLevel.Console.SetLogLevel` | src/log-level/log-level.ts:48-67 | it throws, changing nothing, iff the argument is `Unrenderable` or the snapshot has no `info`. Otherwise it appends exactly one message through the original `info` and replaces all six entries with the gates for the resolved level, whatever the table held before |
| `LogLevel.Console.Call` | src/log-level/log-level.ts:65 | a call reaches its original iff the binding passes and the original exists. It is then recorded exactly once, with the identical arguments, and otherwise nothing is recorded |
| `LogLevel.EmissionsOfSnoc` | src/log-level/log-level.spec.ts:42-51 | calling one more method appends exactly its call to the recorded calls |
| `LogLevel.EmissionsOf` | src/log-level/log-level.spec.ts:42-51 | one recorded call with the given arguments for each listed method, in order |
| `LogLevel.ForwardedCalls` | src/log-level/log-level.spec.ts:42-51 | the calls that calling each method in order records: at most one per method, each with the given arguments and naming a listed method |
| `LogLevel.ForwardedCallsSuffix` | src/log-level/log-level.spec.ts:28-52 | when exactly the calls from position `a` on get through, calling the methods in order records one call of each of them from `a` on, and nothing else |
| `LogLevel.LiveCallsThrough` | src/log-level/log-level.ts:62-65 | with all originals present, on the host's own table every method gets through, and on the table installed under a level method `i` gets through iff `i >= ActiveFrom` |
| `LogLevel.LiveForwardedCalls` | src/log-level/log-level.ts:62-65 | with all originals present, calling the six methods in order records exactly the calls of the suffix from `ForwardingFrom` (all six before any configuration, `ActiveFrom` under a level) |
| `LogLevel.ProbeAll` | src/log-level/log-level.spec.ts:28-52 | calling each method once in order reports, per method, whether it reached its original, and records exactly the forwarded calls |
| `LogLevel.ProbeLive` | src/log-level/log-level.spec.ts:28-52 | on a live table with all originals, exactly the methods from `ForwardingFrom` on are forwarded, once each, with their arguments |
| `LogLevel.LevelInForce` | src/log-level/log-level.ts:48-66 | no contract; defined, for a console whose snapshot has `info`, as: a `setLogLevel` whose argument cannot be rendered throws and leaves the previous level (or none) in force, otherwise its resolved level is in force |
| `LogLevel.SetThenProbe` | src/log-level/log-level.spec.ts:54-148 | for ANY argument, configuring a fresh console and then calling all six methods forwards exactly those at or after `ActiveFrom` of the resolved level, or all six when the call threw. The trace is the message, if any, followed by those calls |
| `LogLevel.ReconfigureThenProbe` | src/log-level/log-level.ts:48-66 | after two configurations the gates behave exactly as under the last one that did not throw (the host's own functions if neither did), and each call is forwarded at most once; the trace holds the message of each configuration that did not throw and then the calls the level in force allows |

## Left out

- Real console output, its formatting and transport: an original function is an abstract sink that appends `(method, args)` to `output`.
- Monkey-patching `global.console` and JavaScript closures: these are an explicit six-entry `table` field whose gates carry the two levels they close over.
- `String.prototype.toLowerCase`/`toUpperCase` beyond ASCII letters: every level token is ASCII, and non-ASCII case mapping is not modelled.
- The template-literal rendering of non-string arguments in the warning (`null`, `123`, `[object Object]`, the empty string for `[]`): it is an opaque string carried in `NonString`. Which values throw instead is not computed either: such a value is `Unrenderable`.
- The return value of a gate (`false`, or whatever the original returns): it is not modelled.
- Console methods other than the six: `setLogLevel` does not touch them.
- Changes that other code makes to the `_console` object after load (test spies, for example): the snapshot is a `const`.
- `LogLevel.Console.Call`: calling a console method that the host lacks while its entry is still the host's own function, i.e. before any `setLogLevel` that did not throw, throws a `TypeError` in JavaScript. The model treats that call as a no-op.
- The host detail that the native `trace` may print through `error`: `Call` records only the method that was called.
