# Defense policy engine: assertion codec, permission table and storage-adapter protocol

This project models, in Dafny, the lower layers of the `defense` access-control
library:

- **Permissions** (`permissions.dfy`): the permission bitmask algebra of the
  assertion library. `addPermissions` folds a list of tokens (`r`/`read`/4,
  `w`/`write`/2, `d`/`delete`/1, `n`/`none`/0; strings compared after
  lower-casing, integers by strict equality) into a 3-bit mask, one token at a
  time. `permissionNumberToString` describes a mask.
- **KeyCodec** (`key_codec.dfy`): the flat assertion key
  `scopeModel D scopeId D entityModel D entityId`, and the inverse split used to
  prove that the encoding is injective.
- **Assertions** (`assertion.dfy`): the configuration constants (default
  permission, wildcard, owner, delimiter) and the mutable `Assertion` builder
  class with `give`, `entity`, `permission`, `key`, `value`, `toObject` and
  `toString`.
- **PermissionTables** (`permission_table.dfy`): the named masks `rwd` … `n`,
  the `"."`-delimited key and single-entry record builders, and
  `add`/`get`/`buildAndAdd`/`buildAndGet` against the permission-table store. The
  store is a map field that the table updates in place.
- **DatabaseAdapters** (`database_adapter.dfy`): the base storage adapter. It has
  pass-through transaction hooks and CRUD operations that report "not
  implemented". Its `add`/`upsert`/`remove` protocol is a class method that
  appends each hook call and the final callback to a trace. A pure function
  `Protocol` specifies that trace.

A subclass of the JavaScript base adapter overrides its prototype methods. Here
the overridable members are function values in a `Hooks` record. Each one
returns the single `(error, value)` reply its callback receives. `DefaultHooks`
holds the base class's own members.

Some facts about the source that the model keeps:

- Composite tokens such as `"rw"` or `"read, write"` fall to the default branch
  of the `switch` at `libs/assertion/index.js:26-60` and are ignored. They are
  not split into letters.
- The descriptions of masks 6 and 7 are `"Read, Write"` and
  `"Read, Write, Delete"`, as `libs/assertion/index.js:157-178` writes them.
- The source builds keys but never splits them. `KeyCodec.ParseKey` is this
  model's own inverse of the key builder. It exists to prove that distinct
  4-tuples give distinct keys.
- The assertion delimiter defaults to `':'`. The permission table fixes its own
  delimiter `'.'` (`libs/permissionTable/index.js:20`). Both use the one key
  builder `KeyCodec.BuildKey`.

## Model

| member | source | states |
|---|---|---|
| `Permissions.AddPermissions` | libs/assertion/index.js:16-64 | the loop's mask is the left-to-right fold `Combine` of the tokens, starting from the current mask or 0 when it is falsy |
| `Permissions.Start` | libs/assertion/index.js:17-19 | an absent starting mask counts as 0; a present one is kept (0 stays 0) |
| `Permissions.Classify` | libs/assertion/index.js:22-60 | an integer token grants the bit it equals (4, 2 or 1), resets at 0 and is otherwise ignored; a string grants read, write or delete exactly when its lower-cased form is `r`/`read`, `w`/`write` or `d`/`delete`, and resets exactly when it is `n`/`none`; any other value is ignored |
| `Permissions.ClassifyIgnoresCase` | libs/assertion/index.js:22-24 | a string token acts exactly as its lower-cased form does |
| `Permissions.AddBitIsOr` | libs/assertion/index.js:27-49 | on a mask in [0,7], adding an absent bit (and leaving a present one alone) is the bitwise or with that bit |
| `Permissions.AddBitIdempotent` | libs/assertion/index.js:30-32 | after a bit is added it is present, and adding it again changes nothing, for any integer mask |
| `Permissions.AddBitCommutes` | libs/assertion/index.js:27-49 | adding two bits in either order gives the same mask, for any integer mask |
| `Permissions.CombineAppend` | libs/assertion/index.js:21-61 | applying two token lists one after the other equals applying their concatenation |
| `Permissions.CombineInRange` | libs/assertion/index.js:21-61 | a starting mask in [0,7] gives a result in [0,7] for every token list |
| `Permissions.NoneResets` | libs/assertion/index.js:51-55 | a none token (`n`, `none` or 0) discards everything before it: the result is the rest of the list applied to 0 |
| `Permissions.CombineWithoutReset` | libs/assertion/index.js:27-49 | without a none token the result is the starting mask with exactly the granted bits added |
| `Permissions.OrderIrrelevant` | libs/assertion/index.js:21-61 | two lists that are permutations of each other and have no none token give the same mask |
| `Permissions.CombineIdempotent` | libs/assertion/index.js:21-61 | applying the same tokens twice gives the mask of applying them once, for any starting integer |
| `Permissions.PermissionNumberToString` | libs/assertion/index.js:157-178 | a mask in [0,7] is described by the comma-joined names of its bits, read first ("None" when it has none); any other value gives "Invalid permission value of " and its decimal form |
| `Permissions.DescriptionsDistinct` | libs/assertion/index.js:157-178 | the eight valid masks have eight different descriptions |
| `Permissions.DecimalRoundTrip` | libs/assertion/index.js:176 | the decimal digits written for a number read back as that number |
| `KeyCodec.BuildKey` | libs/assertion/index.js:142-147 | the key holds three delimiters plus those inside the parts, so exactly three when the parts have none |
| `KeyCodec.ParseBuildKey` | libs/permissionTable/index.js:34-36 | a key built from delimiter-free parts splits back into those four parts, in order |
| `KeyCodec.BuildParsedKey` | libs/permissionTable/index.js:34-36 | every key that splits into four segments is the key built from those segments |
| `KeyCodec.BuildKeyInjective` | libs/permissionTable/index.js:34-36 | distinct delimiter-free 4-tuples give distinct keys |
| `Assertions.GetDefaultPermission` | libs/assertion/index.js:66-72 | the default permission is the configured tokens folded into 0, or 0 when none are configured, and it lies in [0,7] |
| `Assertions.LoadConfig` | libs/assertion/index.js:74-90 | each constant is its configured value or the built-in default `*`, `@`, `:` |
| `Assertions.OrElse` | libs/assertion/index.js:100-106 | `arg \|\| fallback`: the argument when it is truthy (present and non-empty), otherwise the fallback |
| `Assertions.Assertion.constructor` | libs/assertion/index.js:97-109 | every falsy part becomes the wildcard; falsy permissions (absent or 0) become the default permission |
| `Assertions.Assertion.Give` | libs/assertion/index.js:111-119 | only the scope fields whose argument is truthy are overwritten; entity and permissions are unchanged; the builder itself is returned |
| `Assertions.Assertion.Permission` | libs/assertion/index.js:121-124 | the mask becomes the fold of the arguments into the current mask, it stays in [0,7] if it was, and scope and entity are unchanged |
| `Assertions.Assertion.Entity` | libs/assertion/index.js:126-134 | only the entity fields whose argument is truthy are overwritten; scope and permissions are unchanged |
| `Assertions.Assertion.Key` | libs/assertion/index.js:142-147 | with delimiter-free parts, the key has three delimiters and splits back into scope model, scope id, entity model and entity id |
| `Assertions.Assertion.Value` | libs/assertion/index.js:149-151 | `value()` is the mask the builder holds, the one the constructor and `permission()` set, and the one `toObject` and `toString` report |
| `Assertions.Assertion.ToObject` | libs/assertion/index.js:136-140 | the object has the single key `key()`, mapped to `value()` |
| `Assertions.Assertion.ToString` | libs/assertion/index.js:153-155 | the text is the quoted key, then " = ", then the description of the mask |
| `PermissionTables.ConstantsMatchLetters` | libs/permissionTable/index.js:56-63 | `r`, `w`, `d`, `n` are 4, 2, 1, 0, and each composite is the fold of its letters (`rw` = 6, `rd` = 5, `wd` = 3, `rwd` = 7) |
| `PermissionTables.BuildAssertionKey` | libs/permissionTable/index.js:34-36 | with dot-free parts, the key has exactly three `"."` and splits back into the four parts in order |
| `PermissionTables.BuildAssertion` | libs/permissionTable/index.js:28-32 | the record has exactly one entry, from the built key to the permission |
| `PermissionTables.Put` | libs/databaseAdapters/redis.js:123-137 | an empty record is refused with `NoEntry`; otherwise the store gains the record's first key, mapped to its value, and every other key keeps its value |
| `PermissionTables.Lookup` | libs/databaseAdapters/redis.js:244-260 | an empty key is refused with `InvalidId`; otherwise the reply holds a value exactly when the key is stored, and that value is the stored one |
| `PermissionTables.GetAfterAdd` | libs/permissionTable/index.js:39-53 | adding an assertion and then getting its key gives back its permission |
| `PermissionTables.AddLeavesOtherKeys` | libs/permissionTable/index.js:43-45 | adding a record changes the lookup of no other key |
| `PermissionTables.AddLeavesOtherTuples` | libs/permissionTable/index.js:39-41 | adding for one dot-free 4-tuple leaves the lookup of every other dot-free 4-tuple unchanged |
| `PermissionTables.PermissionTable.constructor` | libs/permissionTable/index.js:18-21 | the table starts over the given store |
| `PermissionTables.PermissionTable.Add` | libs/databaseAdapters/redis.js:123-137 | the record's first entry is stored under its key and nothing else changes; an empty record is refused and leaves the store as it was |
| `PermissionTables.PermissionTable.Get` | libs/databaseAdapters/redis.js:243-260 | an empty key is refused; otherwise the stored permission, or none when the key is absent |
| `PermissionTables.PermissionTable.BuildAndAdd` | libs/permissionTable/index.js:39-41 | the store gains the built key mapped to the permission, and no other change |
| `PermissionTables.PermissionTable.BuildAndGet` | libs/permissionTable/index.js:47-53 | the reply is the store's lookup of the built key |
| `PermissionTables.AddThenGet` | libs/permissionTable/index.js:39-53 | through the table's own methods, `buildAndAdd` then `buildAndGet` on the same parts returns the permission |
| `DatabaseAdapters.NotImplemented` | libs/databaseAdapters/index.js:83-158 | the error has status 500 and its message names the operation |
| `DatabaseAdapters.NotImplementedIdentifiesOperation` | libs/databaseAdapters/index.js:83-158 | different operations give different errors |
| `DatabaseAdapters.BaseOperation` | libs/databaseAdapters/index.js:83-158 | a base CRUD operation reports its not-implemented error and never a value (given `log` and `error` objects, see Left out) |
| `DatabaseAdapters.DefaultHooks` | libs/databaseAdapters/index.js:46-81 | the default start gives no error and an empty transaction; end and failed give no error and the transaction unchanged; the batch operations are the not-implemented ones |
| `DatabaseAdapters.Protocol` | libs/databaseAdapters/index.js:174-277 | the trace has two to four events; it begins with `startTransaction` of the kind's name; the batch runs second exactly when start succeeds; the callback is invoked only as the last event, with `options.fixtureId` |
| `DatabaseAdapters.CallbackExactlyOnce` | libs/databaseAdapters/index.js:174-277 | on every path the trace begins by starting a transaction of the operation's kind, and the callback is invoked exactly once, last, with `options.fixtureId` |
| `DatabaseAdapters.StartFailure` | libs/databaseAdapters/index.js:176-179 | when start fails, its error is reported with `results: []` and start's transaction; no batch, end or failed hook runs |
| `DatabaseAdapters.BatchFailure` | libs/databaseAdapters/index.js:181-189 | when the batch fails, failed runs and end does not; the callback gets the batch error alone, or with the transaction error, and the batch's partial results |
| `DatabaseAdapters.BatchSuccess` | libs/databaseAdapters/index.js:190-196 | when the batch succeeds, end runs and failed does not; the callback gets end's error or none, with the batch's results |
| `DatabaseAdapters.DefaultAdapterFails` | libs/databaseAdapters/index.js:174-201 | given `log` and `error` objects, the base adapter's add/upsert/remove always end with the not-implemented error of the batch operation and the empty transaction |
| `DatabaseAdapters.DatabaseAdapter.constructor` | libs/databaseAdapters/index.js:20-24 | a new adapter has the given members and an empty trace |
| `DatabaseAdapters.DatabaseAdapter.Base` | libs/databaseAdapters/index.js:20-24 | the base adapter has the default members and an empty trace |
| `DatabaseAdapters.DatabaseAdapter.StartTransaction` | libs/databaseAdapters/index.js:46-48 | replies as the start hook does and records the start |
| `DatabaseAdapters.DatabaseAdapter.EndTransaction` | libs/databaseAdapters/index.js:62-64 | replies as the end hook does and records it |
| `DatabaseAdapters.DatabaseAdapter.FailedTransaction` | libs/databaseAdapters/index.js:79-81 | replies as the failed hook does and records it |
| `DatabaseAdapters.DatabaseAdapter.Batch` | libs/databaseAdapters/index.js:180 | runs the kind's batch operation with its own argument order and records it |
| `DatabaseAdapters.DatabaseAdapter.Callback` | libs/databaseAdapters/index.js:178 | records one invocation of the caller's callback with its arguments |
| `DatabaseAdapters.DatabaseAdapter.Run` | libs/databaseAdapters/index.js:174-277 | appends exactly the `Protocol` trace and returns the arguments of its final callback |
| `DatabaseAdapters.DatabaseAdapter.Add` | libs/databaseAdapters/index.js:174-201 | starts an `'insert'` transaction, appends the protocol trace with exactly one callback, and returns that callback's arguments |
| `DatabaseAdapters.DatabaseAdapter.Upsert` | libs/databaseAdapters/index.js:212-239 | the same for an `'upsert'` transaction around `upsertItems` |
| `DatabaseAdapters.DatabaseAdapter.Remove` | libs/databaseAdapters/index.js:250-277 | the same for a `'delete'` transaction around `removeItems` |

## Left out

- `libs/index.js` is not part of this model. That covers configuration loading, the event emitter, logging setup and adapter selection. It also covers the `can*` wrappers, which call a `can` that `libs/permissionTable/index.js` does not define.
- Correlation scoring, related-key enumeration and most-specific-assertion resolution are left out. No file of the source defines them.
- The Mongoose and Redis adapters are not modelled beyond the permission-table store. That store is a `map<string, int>`. `add` sets the record's first key and `get` reads one key, as the Redis adapter does without a schema. Network errors of the store are not modelled, so a non-empty `add` always succeeds.
- The Redis store keeps values as strings. The model stores the integer mask.
- An empty assertion record makes the Redis adapter call `set` with an undefined key. The model refuses the record (`NoEntry`) instead.
- The `async.parallel` fan-out inside the adapters is not modelled. A batch is one reply carrying the sequence of per-item results.
- `libs/attributePermission/index.js` (an unfinished stub), `libs/log/index.js`, `example/index.js` and `test/libs/api.js` are not part of this model.
- Logging calls are dropped. `error.build(message, status)` becomes the `Error(message, status)` value.
- The adapter constructor's `config`, `log` and `error` fields are not modelled. They only serve logging and error building.
- `DatabaseAdapters.BaseOperation` and `DatabaseAdapters.DefaultAdapterFails` assume that the adapter's `log` and `error` are objects. Every base CRUD operation calls `this.error.build` and `this.log.error` before its callback (`libs/databaseAdapters/index.js:84-157`). Both shown subclasses build the base without an `error` (`redis.js:33`, `mongoose.js:32`). There an unoverridden operation throws a TypeError, and neither its callback nor the callback of `add`/`upsert`/`remove` ever fires. The model does not represent that.
- `Assertions.GetDefaultPermission` assumes that the configured default permissions are a list. With any other value, the `forEach` that `addPermissions` runs on it (called at `libs/assertion/index.js:68`, loop at line 21) throws while the module loads. `Settings.defaultPermissions` can only hold a token list.
- A start hook that fails with `cb(err)` and no transaction (`redis.js:77`) hands `transaction: undefined` to the caller. `Reply<Transaction>` always carries a transaction, so the model cannot express an absent one.
- `PermissionTables.Put`: an assertion record is a `seq<Entry>`, which could repeat a key; a JavaScript object cannot. With a repeated key, `Put` stores the first entry's value, while the object would hold the last one assigned. Records built by `BuildAssertion` have a single entry, so the difference never arises in the table.
- Each hook is assumed to call its callback exactly once, so each returns one reply. A hook that never calls back, or calls back twice, is outside the model.
- `options` must be an object. With `undefined` options, `options.fixtureId` throws before any callback, and the model does not represent that.
- Configuration comes in as a `Settings` parameter rather than from `node-config`.
- The configured delimiter is a single character. A longer delimiter string is not modelled.
- The owner operator is only loaded as a constant. None of the modelled code uses it.
- Lower-casing is modelled on the letters A to Z. The tokens are compared against words made only of the ASCII letters a, d, e, i, l, n, o, r, t and w. No other character lower-cases to exactly one of these, so matching is unaffected.
- Tokens are integers, strings or "other". A non-integral number never matches and falls under "other".
- Masks are unbounded integers. JavaScript's double precision beyond 2^53 and `+` on a non-numeric stored mask (string concatenation) are not modelled.
- Bitwise `&` is modelled by the value of the bit in the two's-complement integer, which is what `ToInt32` keeps in its low bits.
- Scope and entity parts are strings or absent. Numeric ids, which JavaScript would stringify when concatenating, are not modelled.
- `Permissions.IntToDecimal` writes every integer in plain digits. JavaScript switches to exponent notation from 1e21.
- `Assertions.Assertion.Key`: the contract states the split-back property only for parts free of the delimiter. For other parts, only the delimiter count is given, through `KeyCodec.BuildKey`.
- `Give`, `Entity` and `Permission` return the builder (`self == this`) for chaining. Chained calls are not otherwise modelled.
