# ClassDebug, modelled in Dafny

ClassDebug gives each class, or a single instance, its own namespaced
diagnostic channel. It composes a tag such as `mh:Widget` or
`mh:Widget[42]`. It asks the `debug` library for a logger handle bound to that
tag. It then installs two properties:

- `debugr`: the raw handle, which always logs;
- `debug`: the handle when its tag is enabled, otherwise one shared no-op.

For a class these go on the class and its prototype. For an instance they go
on the instance alone. Every handle is also written into a static `debugs`
store under its tag, and the last writer wins. `extend(prefix)` makes a
subtype with its own `default_prefix`. The subtype finds `debugs` by static
inheritance, so the base type and all its extensions write into one store.

Modules:

- `Js` (js.dfy): optional arguments as `Value = Undefined | Null | Str(s)`. It
  defines truthiness, the `||` default, the `=== undefined || === null`
  default, and how a template literal renders a value.
- `Text` (text.dfy): the first index of a character in a string.
- `Tags` (tags.dfy): the class tag and the instance tag as functions. It also
  has two parsers that take a tag apart again (`SplitTag`, `SplitData`). The
  round-trip lemmas say which parts a tag is made of.
- `Logging` (logging.dfy): the `debug` library kept abstract. `Create(tag,
  isEnabled)` makes a new `Handle`. Whether a tag is enabled is a predicate
  the caller passes in. `Logger = Live(handle) | Noop`.
- `Registries` (registry.dfy): the `debugs` store as a class over
  `map<string, Handle>`. `Replay` is a series of writes, with lemmas for
  last-writer-wins and key growth.
- `ClassDebug` (class_debug.dfy): the decorated objects (`Target`, its
  `Prototype`, `ClassInstance`), the static side `DebugType` (`default_prefix` plus
  a reference to the shared `Registry`) and `Debugger`, an object made by
  `new ClassDebug(prefix)`.
- `Scenarios` (scenarios.dfy): client methods whose results follow from the
  contracts alone.

Facts about the code that shape the model:

- The store is written but never read, so it is not a memoizing cache. Every
  attach asks the library for a new handle and overwrites the entry
  (src/ClassDebug.js:46, 52).
- Instance `attach(cls)` takes no suffix. It passes only the bound prefix, so
  the suffix is always the class name (src/ClassDebug.js:77-79).
- A class attach also writes the pair onto the prototype
  (src/ClassDebug.js:48-49). An instance without its own properties therefore
  sees the class's `debug` and `debugr`. `ClassInstance.Debug` models that
  lookup.
- `extend`'s `name` argument only picks a key in a local dictionary
  (src/ClassDebug.js:28-32). The class expression stays anonymous, so the
  argument has no effect on the returned type.

## Revisions

lib/ClassDebug.js is the compiled copy of an earlier revision. Its logic is
the same as src/ClassDebug.js, except that `extend` exists only as a comment
(lib/ClassDebug.js:35-42). One model covers both files. Where a row below
cites one file, the matching lines of the other are:

| operation | src/ClassDebug.js | lib/ClassDebug.js |
|---|---|---|
| noop | 4 | 14 |
| classInit | 9-17 | 18-26 |
| setup | 20-24 | 29-33 |
| extend | 27-33 | absent (comment at 36-42) |
| static attach | 36-53 | 45-62 |
| static instance | 56-68 | 65-77 |
| constructor | 72-74 | 80-82 |
| instance attach | 77-80 | 85-87 |
| instance instance | 83-85 | 90-92 |
| load-time classInit | 89 | 97 |

## Model

| member | source | states |
|---|---|---|
| Js.Render | src/ClassDebug.js:44 | The template-literal conversion: `undefined` and `null` become the words, a string itself. The result is empty exactly when the value is the empty string. |
| Js.Or | src/ClassDebug.js:60 | The logical-or default (`a` or else `b`) is one of its operands, the first one when it is truthy, and it is truthy exactly when either operand is. |
| Js.IfNullish | src/ClassDebug.js:38-43 | The undefined-or-null default is one of its operands, the first one when that is not nullish, and it is nullish exactly when both are. |
| Js.DefaultingRulesDiffer | src/ClassDebug.js:38-60 | The `||` default used by `instance` and the constructor differs from the nullish default used by `attach` exactly when the argument is `""` and the default is not `""`. |
| Tags.ClassTag | src/ClassDebug.js:38-44 | The class tag is the resolved prefix, a colon and the resolved suffix: it always holds a colon, and its length is the two parts' lengths plus one. `ClassTagParts` states which parts it holds. |
| Tags.InstanceTag | src/ClassDebug.js:60-62 | The instance tag is the resolved prefix, a colon and the constructor's name, plus `[data]` only when the data is truthy: it always holds a colon, and its length is exactly that. `InstanceTagParts` states which parts it holds. |
| Tags.SplitTag | src/ClassDebug.js:44 | Splitting a tag at its first colon gives a colon-free root and a rest that rejoin to the tag. The result is absent exactly when the tag has no colon. |
| Tags.SplitData | src/ClassDebug.js:61-62 | Splitting `name[data]` gives a `[`-free name and data that rejoin to the input. When there is no data part, the whole input is the name. |
| Tags.ClassTagParts | src/ClassDebug.js:38-44 | A class tag splits into two parts. The first is the default prefix when the prefix is undefined or null, and otherwise the prefix itself, so `""` is kept. The second is the class name when the suffix is undefined or null, and otherwise the suffix. |
| Tags.InstanceTagParts | lib/ClassDebug.js:69-71 | An instance tag splits into three parts. The prefix is the default whenever the given prefix is falsy. The name is the constructor's name. Data is present exactly when it was truthy. |
| Tags.ClassTagInjective | src/ClassDebug.js:44-52 | For colon-free prefixes, two class attaches write the same store key if and only if their resolved prefixes and suffixes are equal. |
| Tags.ColonInPrefixCollides | lib/ClassDebug.js:53-61 | With a colon inside the prefix, two different prefix/suffix pairs compose the same tag and so share a store key. |
| Tags.InstanceTagWithoutData | lib/ClassDebug.js:69-76 | Without truthy data, an instance's tag is the tag its class gets when attached under the same resolved prefix. |
| Logging.Create | src/ClassDebug.js:46 | The factory returns a new handle bound to the tag, enabled exactly when the tag is enabled. |
| Logging.Guarded | src/ClassDebug.js:49-51 | The guarded logger is the handle exactly when the handle is enabled. Otherwise it is the single shared no-op. |
| Registries.Registry.Store | src/ClassDebug.js:52 | Storing writes exactly the key `tag`: it now maps to the handle, and every other key keeps its presence and value. The new store is the replay of that one write. |
| Registries.ReplaySnoc | src/ClassDebug.js:67 | One more `debugs[tag] = h` after a series of writes gives the replay of the longer series. |
| Registries.Registry.Clear | src/ClassDebug.js:16 | The store is empty afterwards. |
| Registries.ReplayKeys | src/ClassDebug.js:67 | After a series of `debugs[tag] = h` writes, the store's keys are the old keys plus every tag written. Nothing is removed. |
| Registries.ReplayLastWriterWins | lib/ClassDebug.js:61 | After a series of `debugs[tag] = h` writes, a tag maps to the handle of the last write with that tag. |
| Registries.ReplayUntouched | lib/ClassDebug.js:76 | A tag that no write names keeps its entry, or stays absent. |
| ClassDebug.ClassInstance.Debug | src/ClassDebug.js:49 | `instance.debug` is the instance's own property when it has one, and otherwise the prototype's. It is defined exactly when one of them is. |
| ClassDebug.ClassInstance.Debugr | src/ClassDebug.js:48 | `instance.debugr` is the instance's own property when it has one, and otherwise the prototype's. It is defined exactly when one of them is. |
| ClassDebug.DebugType.Load | lib/ClassDebug.js:96-97 | Loading the module leaves the type with prefix `mh` and a new, empty store. |
| ClassDebug.DebugType.ClassInit | src/ClassDebug.js:9-17 | Afterwards the default prefix is `mh` and the store is empty. |
| ClassDebug.DebugType.Extending | src/ClassDebug.js:29-31 | The subtype has the given default prefix and the base's store. |
| ClassDebug.DebugType.Extend | src/ClassDebug.js:27-33 | Returns a new type with default prefix `prefix` that shares this type's store. This type is not modified. |
| ClassDebug.DebugType.Attach | src/ClassDebug.js:36-53 | Returns a new handle for the class tag, enabled as the tag is. The class and prototype get `debugr` equal to the handle and `debug` equal to its guarded form. The store changes only at the tag, which now holds the handle. Instances with no own properties inherit the pair. |
| ClassDebug.DebugType.Instance | src/ClassDebug.js:56-68 | Returns a new handle for the instance tag. Only the instance's `debug`/`debugr` are set. The class and prototype are unchanged. The store changes only at the tag. |
| ClassDebug.DebugType.Setup | src/ClassDebug.js:20-24 | Returns a new debugger of this type bound to `prefix`, or `default_prefix` when `prefix` is falsy. The class and its prototype are attached under that prefix, a colon and `cls.name`. The store holds that handle at that tag. |
| ClassDebug.Debugger.constructor | lib/ClassDebug.js:80-82 | The bound prefix is `prefix`, or the `default_prefix` of the debugger's type when `prefix` is falsy. |
| ClassDebug.Debugger.Attach | src/ClassDebug.js:77-80 | Static attach with the bound prefix and an undefined suffix: the class tag uses the class name. |
| ClassDebug.Debugger.Instance | lib/ClassDebug.js:90-92 | Static instance with the bound prefix and the given data. Only the instance and the store at that tag change. |
| ClassDebug.SetupTag | src/ClassDebug.js:72-78 | Applying the nullish default to a prefix already defaulted by truthiness changes nothing. So setup's tag is the bound prefix, a colon and the class name. |
| Scenarios.SetupWidget | src/ClassDebug.js:20-24 | `setup(Widget)` on the loaded type logs under `mh:Widget`. A new `Widget` instance sees the class's pair through the prototype. The store holds the class's handle. |
| Scenarios.ExtendCustom | src/ClassDebug.js:27-33 | After `extend('custom')`, setup through the extension tags `custom:Widget`. The base keeps `mh`. The handle lands in the base's store. |
| Scenarios.EmptyPrefix | src/ClassDebug.js:38-62 | An empty prefix gives `:Widget` through static attach and `mh:Widget[42]` through static instance with data `42`. Empty data appends nothing. |
| Scenarios.EnabledOrNoop | src/ClassDebug.js:48-51 | A disabled tag leaves `debug` as the no-op while `debugr` is the handle. An enabled tag makes both the handle. |
| Scenarios.SameTagLastWins | src/ClassDebug.js:46-52 | Two same-named classes attached under one prefix share a tag. The store after the two attaches is the replay of their two writes, so it keeps the later handle. The earlier class keeps its own. |

## Left out

- The `debug` library itself: how a handle logs, and how its enabled state is
  matched against the `DEBUG` environment pattern. It is foreign code.
  `isEnabled` is a parameter, and `Create` always returns a new handle.
- Changing a handle's enabled state after it is made. In the model
  `enabled` is fixed when a handle is made. So the model cannot show a
  handle re-enabled later while `debug` keeps the choice made at attach time.
- Calling a logger, including the module's own diagnostic calls
  (src/ClassDebug.js:45, 58). They are output with no result to state.
- Whether two attaches of one tag get the same handle object. The code calls
  the factory anew every time, so any sharing would come from the library.
- JavaScript reflection and plumbing. `cls.name` is a constant string field,
  `instance.constructor` a constant reference, and property lookup is modelled
  only for an instance and its prototype. The `__esModule` and interop code
  (lib/ClassDebug.js:3-11) and the inline source map (lib/ClassDebug.js:98)
  are not modelled.
- Argument values other than `undefined`, `null` and strings, such as numbers,
  booleans or objects passed as `data` or `prefix`. Their truthiness and
  string conversion follow other rules.
- ClassDebug.DebugType.ClassInit: on an extension type, JavaScript gives that
  type its own new `debugs` and detaches it from the base. The model clears the
  shared store in place. The two agree when it runs on the base type, which is
  the only call the code makes.
- ClassDebug.DebugType.Extend: the `name` argument is accepted and ignored. A
  debug type carries no class name in the model.
- Attaching to an object that is itself a debug type or a debugger. The model
  keeps decorated classes apart from the debug types.
- test/built/ClassDebug.js and test/unit/ClassDebug.js. They only check that
  the exports exist and are functions.
