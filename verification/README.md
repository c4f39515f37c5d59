# Optimizer resource container: a Dafny model

This project models the backend-agnostic base of the optimizer resource
container (`AbstractResourceContainer`) of the Arctic lakehouse management
service. An optimizer is a worker process that compacts and rewrites table
files. A resource container obtains such workers from some execution backend:
a local process, a pod or a job. The base class holds the logic that every
backend shares:

- `init` stores the container's name and configuration. It reads two required
  keys: the service home directory and the optimizing-service address.
- `requestResource` asks the backend to scale out (`doScaleOut`). It then
  merges the startup facts the backend reports into the resource's property
  map.
- `getOptimizingUri` picks the address the worker connects to. A non-empty
  per-resource address wins; otherwise the container-wide address applies.
- `buildOptimizerStartupArgsString` builds the worker command line. It is
  `-a <address> -p <threads> -g <group>`, then `-hb <interval>` when the key
  is present, then `-eds -dsp <path>` when extended disk storage is on,
  followed by `-msz <size>` when that key is present, then `-id <id>` when
  the resource has an id.
- `exportSystemProperties` turns the configuration entries whose keys carry
  the export prefix into `export NAME=value` shell lines.
- `getStatus` is the default status query. It knows nothing and answers null.

The Java class keeps its state in mutable fields. The model keeps that state
in an immutable `Container` value, and every operation is a pure function of
it. The one exception is `ExportSystemProperties`, which is a method with a
loop, as in the source. A field that is still null before `init` is `None`.
The configuration is held as a snapshot taken at `init`, where Java keeps
the caller's live map (see "## Left out").
A resource is a `Resource` value. `requestResource` returns the updated
resource instead of mutating it in place.

Modules, one per file:

- `Results` (`results.dfy`): `Option`, `Result` and `Outcome`. These stand
  for a nullable reference, a call that may throw, and a `void` call that may
  throw.
- `Text` (`text.dfy`): the `String`, `Integer` and `Boolean` operations used
  here: prefix tests, substring, decimal formatting with its inverse, and the
  `"true"` test of `Boolean.parseBoolean`.
- `PropertyNames` (`property_names.dfy`): the property keys.
- `PropertyUtil` (`property_util.dfy`): the error type, the configuration as
  an ordered list of entries with distinct keys, and the lookups used by the
  container.
- `Resources` (`resources.dfy`): the resource entity and the `putAll` merge.
- `CommandLine` (`command_line.dfy`): a command line as a list of flags with
  optional values, and how that list is rendered as one string.
- `ResourceContainer` (`resource_container.dfy`): the container itself.

The command line is modelled twice:

- `BuildOptimizerStartupArgsString` appends text piece by piece, as the Java
  method does.
- `StartupArgs` builds the same command line as a list of `Arg` values.

`BuildRendersStartupArgs` proves that the string is the rendering of the
list. The "flag present exactly when …" properties are stated on the list.
On the raw string they cannot hold as equivalences. Values are appended
without quoting, so a group name such as `g -hb 5` puts ` -hb 5` into the
string even though no heartbeat key is set (`HeartbeatTextWithoutHeartbeatKey`).
Only the forward direction holds on the string: every argument of the list
appears in it (`ArgsAppearInString`).

Three behaviours of the code are worth stating plainly, because the model
keeps them:

- `requestResource` does not validate the group name or the thread count
  (`AbstractResourceContainer.java:36-39`).
- `getStatus` answers null, not an explicit "unknown" status
  (`AbstractResourceContainer.java:100-103`).
- `init` assigns the name and the configuration before it reads the required
  keys (`AbstractResourceContainer.java:28-32`). A failed `init` therefore
  still changes them. When only the address is missing, the home directory
  has changed too.

## Model

| member | source | states |
|---|---|---|
| ResourceContainer.Init | ams/optimizer/src/main/java/com/netease/arctic/optimizer/AbstractResourceContainer.java:27-33 | init always stores the name and the configuration. It succeeds iff both the home-directory key and the address key are present, and then the two fields hold their configured values. A missing home key fails naming that key, and both fields keep their old values. A missing address key fails naming that key, and only the home directory is updated. |
| ResourceContainer.NameAfterInit | ams/optimizer/src/main/java/com/netease/arctic/optimizer/AbstractResourceContainer.java:22-29 | after init, whether it succeeded or not, name() returns the name init was given |
| ResourceContainer.InitOverwrites | ams/optimizer/src/main/java/com/netease/arctic/optimizer/AbstractResourceContainer.java:27-33 | a second successful init leaves the same state as a single init on a fresh container: the earlier configuration leaves no trace |
| PropertyUtil.Lookup | ams/optimizer/src/main/java/com/netease/arctic/optimizer/AbstractResourceContainer.java:31-32 | a configuration lookup finds a value iff some entry has the key, and the value found belongs to such an entry |
| PropertyUtil.LookupFindsEntry | ams/optimizer/src/main/java/com/netease/arctic/optimizer/AbstractResourceContainer.java:31-32 | in a configuration with distinct keys, looking up an entry's key yields exactly that entry's value |
| PropertyUtil.GetRequiredNotNull | ams/optimizer/src/main/java/com/netease/arctic/optimizer/AbstractResourceContainer.java:31-32 | the required-key read succeeds iff the key is present, with the looked-up value. Otherwise it fails with an error naming the key. |
| ResourceContainer.RequestResource | ams/optimizer/src/main/java/com/netease/arctic/optimizer/AbstractResourceContainer.java:35-41 | the request succeeds iff the backend's scale-out does, and a backend failure is returned unchanged. On success, the key set is the old keys plus the returned keys, and every returned key maps to the returned value. Every other key keeps its old value, and id, group and thread count are unchanged. |
| ResourceContainer.RequestKeepsCallerKeys | ams/optimizer/src/main/java/com/netease/arctic/optimizer/AbstractResourceContainer.java:36-39 | a successful request never removes a key the caller supplied, whatever the backend returns |
| ResourceContainer.RejectedScaleOutPassesThrough | ams/optimizer/src/main/java/com/netease/arctic/optimizer/AbstractResourceContainer.java:36-41 | a backend that fails to create the worker makes the request fail with that same backend error, untouched |
| Resources.PutAll | ams/optimizer/src/main/java/com/netease/arctic/optimizer/AbstractResourceContainer.java:38 | the merged key set is the union of both key sets. Returned entries win, and old entries survive wherever the backend returned nothing for the key. |
| Resources.PutAllUnique | ams/optimizer/src/main/java/com/netease/arctic/optimizer/AbstractResourceContainer.java:38 | any map with the merged key set that agrees with the returned facts, and with the old map elsewhere, is the merge: the merge is fully determined by those properties |
| ResourceContainer.GetOptimizingUri | ams/optimizer/src/main/java/com/netease/arctic/optimizer/AbstractResourceContainer.java:43-49 | a present, non-empty per-resource address is returned as is. Otherwise (the key is absent or its value is empty) the container-wide address is returned, which is null before init. |
| ResourceContainer.OptimizingUriFallsBackToInitValue | ams/optimizer/src/main/java/com/netease/arctic/optimizer/AbstractResourceContainer.java:43-49 | after a successful init, a resource without its own non-empty address gets exactly the address init read from the configuration, and that address exists |
| ResourceContainer.ReportedUriWins | ams/optimizer/src/main/java/com/netease/arctic/optimizer/AbstractResourceContainer.java:36-49 | when the backend reports a non-empty address on scale-out, the merged resource's optimizing address is that reported address |
| ResourceContainer.StartupArgs | ams/optimizer/src/main/java/com/netease/arctic/optimizer/AbstractResourceContainer.java:55-84 | the argument list fails iff extended disk storage is on and the storage-path key is absent, with an error naming that key. On success it begins with the address, thread-count and group arguments. |
| ResourceContainer.BuildOptimizerStartupArgsString | ams/optimizer/src/main/java/com/netease/arctic/optimizer/AbstractResourceContainer.java:55-84 | the string fails exactly when the argument list fails. On success it starts with `" -a " + address + " -p " + threads + " -g " + group`. With a non-empty id it ends with `" -id " + id`. |
| ResourceContainer.AppendResourceId | ams/optimizer/src/main/java/com/netease/arctic/optimizer/AbstractResourceContainer.java:80-82 | the id segment only extends the string. For a non-empty id exactly ` -id <id>` is appended at the end (the result is longer by that segment's length), and the string is unchanged for an empty one. |
| ResourceContainer.BuildRendersStartupArgs | ams/optimizer/src/main/java/com/netease/arctic/optimizer/AbstractResourceContainer.java:55-84 | the string builder and the argument list succeed together, and the string is exactly the rendering of the list |
| ResourceContainer.StartupArgsInFixedOrder | ams/optimizer/src/main/java/com/netease/arctic/optimizer/AbstractResourceContainer.java:55-84 | every argument is one of a, p, g, hb, eds, dsp, msz, id. They appear in that order, each at most once. |
| ResourceContainer.FlagsOfStartupArgs | ams/optimizer/src/main/java/com/netease/arctic/optimizer/AbstractResourceContainer.java:55-84 | exactly which flags the command line carries, flag by flag, as a function of the resource's properties and id |
| ResourceContainer.HeartbeatArgIffKeyPresent | ams/optimizer/src/main/java/com/netease/arctic/optimizer/AbstractResourceContainer.java:63-66 | -hb is present iff the heartbeat key is present, whatever its value, even an empty one. It then carries that value. |
| ResourceContainer.ExtendDiskArgsIffEnabled | ams/optimizer/src/main/java/com/netease/arctic/optimizer/AbstractResourceContainer.java:67-74 | -eds and -dsp are each present iff the extend-disk property parses as true, or is absent with a true default. In that case the path key exists, and -dsp carries its value. |
| ResourceContainer.MemorySizeArgOnlyWithExtendDisk | ams/optimizer/src/main/java/com/netease/arctic/optimizer/AbstractResourceContainer.java:67-79 | -msz is present iff extended disk storage is on and the memory-size key is present. It never appears without -eds, and it carries the key's value. |
| ResourceContainer.ResourceIdArgLastIffNonEmpty | ams/optimizer/src/main/java/com/netease/arctic/optimizer/AbstractResourceContainer.java:80-83 | -id is present iff the resource id is non-empty. It is then the last argument and carries the id unchanged. |
| ResourceContainer.ArgsAppearInString | ams/optimizer/src/main/java/com/netease/arctic/optimizer/AbstractResourceContainer.java:55-84 | every argument of the list appears, rendered, as a substring of the built string |
| ResourceContainer.HeartbeatTextWithoutHeartbeatKey | ams/optimizer/src/main/java/com/netease/arctic/optimizer/AbstractResourceContainer.java:57-66 | a resource without a heartbeat key, but with group name `g -hb 5`, yields a string that contains ` -hb 5`. So, on the raw string, "contains -hb" does not imply "key present". |
| ResourceContainer.MinimalStartupArgs | ams/optimizer/src/main/java/com/netease/arctic/optimizer/AbstractResourceContainer.java:55-62 | a resource with 4 threads, group g1 and no properties yields exactly ` -a thrift://h:1260 -p 4 -g g1` |
| ResourceContainer.ExtendDiskStartupArgs | ams/optimizer/src/main/java/com/netease/arctic/optimizer/AbstractResourceContainer.java:67-79 | with extended disk storage `true`, path `/data` and memory size `2048`, the string ends in ` -eds -dsp /data -msz 2048` after the mandatory part |
| PropertyUtil.CheckAndGetProperty | ams/optimizer/src/main/java/com/netease/arctic/optimizer/AbstractResourceContainer.java:72-74 | the guarded path lookup succeeds iff the key is present, with its value. Otherwise it fails with an error naming the key. |
| Text.ParseBooleanSpellings | ams/optimizer/src/main/java/com/netease/arctic/optimizer/AbstractResourceContainer.java:67-70 | a present extend-disk value switches storage on iff it is one of the sixteen upper/lower-case spellings of "true" |
| Text.StringValueOf | ams/optimizer/src/main/java/com/netease/arctic/optimizer/AbstractResourceContainer.java:57-58 | a present address is written as is; an absent (null) one is written as the text `null` |
| Text.IntToString | ams/optimizer/src/main/java/com/netease/arctic/optimizer/AbstractResourceContainer.java:59-60 | the thread count is written as a non-empty numeral without spaces. It starts with a minus sign iff the count is negative. |
| Text.IntToStringRoundTrip | ams/optimizer/src/main/java/com/netease/arctic/optimizer/AbstractResourceContainer.java:59-60 | reading the written thread count back gives the requested thread count |
| Text.IntToStringInjective | ams/optimizer/src/main/java/com/netease/arctic/optimizer/AbstractResourceContainer.java:59-60 | two thread counts written as the same text are the same count: distinct thread counts give distinct `-p` values |
| ResourceContainer.ExampleContainerIsInitialized | ams/optimizer/src/main/java/com/netease/arctic/optimizer/AbstractResourceContainer.java:27-33 | init on a fresh container with the home key `/opt/ams` and the address key `thrift://h:1260` succeeds and leaves exactly the container the command-line examples use |
| ResourceContainer.ExportSystemProperties | ams/optimizer/src/main/java/com/netease/arctic/optimizer/AbstractResourceContainer.java:86-98 | before init the result is empty. Otherwise line m is `export NAME=value` for the m-th prefixed configuration entry, in configuration order, and no other line is produced. |
| ResourceContainer.ExportIndices | ams/optimizer/src/main/java/com/netease/arctic/optimizer/AbstractResourceContainer.java:89-90 | the entries exported are exactly those whose key has the export prefix. They are listed in strictly increasing configuration order, so each is exported once and entries without the prefix never are. |
| ResourceContainer.ExportIndicesCount | ams/optimizer/src/main/java/com/netease/arctic/optimizer/AbstractResourceContainer.java:86-98 | the number of export lines equals the number of configuration entries whose key has the prefix |
| ResourceContainer.VariableName | ams/optimizer/src/main/java/com/netease/arctic/optimizer/AbstractResourceContainer.java:91 | the exported variable name is the key with the prefix stripped: the prefix followed by the name gives back the key |
| ResourceContainer.GetStatus | ams/optimizer/src/main/java/com/netease/arctic/optimizer/AbstractResourceContainer.java:100-103 | the default status query answers null for every resource id |

## Left out

- `doScaleOut` and every physical backend (processes, pods, jobs) are not part of this model. `RequestResource` takes the backend as a function parameter. That function either fails with any `Error`, including `ScaleOutFailed` for a backend that cannot create the worker, or returns an arbitrary map of startup facts.
- `doScaleOut` changing the resource it is given: not modelled. The backend sees the resource as a value and returns only its facts.
- `releaseResource`: the class does not define it, so it is not modelled. Idempotent release is a backend matter.
- Request validation (non-empty group, positive thread count): the code performs none, so the model performs none either.
- The status reconciler, debouncing, timeouts and an explicit "unknown" status are not in this class. The default `getStatus` is modelled as returning null.
- `PropertyNames` is not part of this model. Its constants are stand-in strings whose spelling no contract depends on. The default for extended disk storage is false.
- `PropertyUtil.getRequiredNotNull` and `PropertyUtil.checkAndGetProperty` belong to the optimizer utility class, which this model does not cover, so their bodies are not modelled line by line. Both are modelled by what their names and their use promise: a lookup that returns the value when the key is present and fails naming the key when it is absent.
- Null maps and null values: `init` with a null configuration, and property values that are null, are not modelled. Maps here hold strings only. A null resource id behaves like an empty one, as `StringUtils.isNotEmpty` treats both alike.
- Null group name: `StringBuilder.append` writes a null group name as the text `null`, so the command line then carries ` -g null` (`AbstractResourceContainer.java:61-62`). `Resource.groupName` is a plain string and cannot be null, so this case is not modelled.
- Null name in `init`: `init` stores whatever name it is given, so after `init(null, …)` `name()` answers null (`AbstractResourceContainer.java:24`, `:29`). `Init` takes a string, and `NameAfterInit` gives `Some(name)`; the null case is not modelled.
- `doScaleOut` returning null: `putAll(null)` then throws a `NullPointerException` after the backend has already created the worker (`AbstractResourceContainer.java:37-38`). The model's backend function returns either a failure or a map, never null, so this case is not modelled.
- Text.ParseBooleanSpellings: `Boolean.parseBoolean` compares with `equalsIgnoreCase`, which folds case over all of Unicode. The model folds only Latin letters. For the word "true" the two accept the same strings.
- Text.IntToString: the thread count is a Java `int`; the model writes any integer. The text is the same for every 32-bit value.
- Iteration order of the configuration map is not modelled for any particular map implementation. The configuration is an ordered list of entries, and the export lines follow that order.
- `getContainerProperties` returns the very map the caller passed to `init`, which stays live and mutable (`AbstractResourceContainer.java:30`, `:51-53`). The model has no such getter. The configuration is read as the `containerProperties` field of the container state.
- Sharing of the configuration map: the model stores a snapshot of the configuration taken at `init`. The Java class keeps a reference to the caller's map, so an entry changed after `init` shows up in the lines `exportSystemProperties` writes (`:89`). It does not reach `amsHome` or `amsOptimizingUrl`, which hold the values read at `:31-32`. `ExportSystemProperties` always reflects the entries present at `init`.
- The `IOException` declared by `exportSystemProperties` (never thrown by this code) and all concurrency are left out, because the model is sequential and pure.
- `SplitRequestEvent` (the Flink split-request event) is unrelated to the container and is not modelled.
