# Milvus Java SDK request-parameter builders, in Dafny

This project models five request-parameter builders of the Milvus Java SDK:
`GetFlushStateParam`, `GetFlushAllStateParam`, `ManualCompactParam`,
`CreateRoleParam` and `SelectRoleParam`. Each builder starts from fixed
defaults. Its setters assign fields, and `build()` either returns the param
or throws.

A builder call can end in one of three ways:

- a `null` argument to a Lombok `@NonNull` setter throws `NullPointerException`;
- a required string that is null or empty at build time makes
  `ParamUtils.CheckNullEmptyString` throw `ParamException` naming the field;
- success, where the builder's fields are copied into the param.

In Dafny a Java reference that may be null is `Nullable<T>` (`Null | Present(v)`).
`Long` is the `Int64` newtype. A throwing call returns `Result<T>`, whose
error is `NullArg` (the `NullPointerException`) or `ParamError(fieldName)`
(the `ParamException`). Builders and params are immutable datatypes, and
setters and `build` are pure functions. `build` cannot change the builder, so
a failed build leaves the builder ready to be corrected, and building twice
gives params with equal fields (the Java params define no `equals`, so they are
distinct objects whose fields agree).

There is one exception to the pure style. `GetFlushStateParam`'s builder owns
one `ArrayList` of segment ids, and the param's constructor takes that very
list rather than a copy. Here that list is a heap object, `SegmentIdList`, so
sharing is reference equality. `addSegmentID` and `withSegmentIDs` are methods
that append to it. Their effect on the shared list is specified with `old`,
`fresh` and `modifies`, the usual way to specify heap updates in Dafny.

A fluent chain `newBuilder().withA(..).withB(..)` is modelled as a sequence of
`Call`s run by `Chain`, which stops at the first exception. Lemmas over every
such sequence state which chains throw, which field values survive (last
write wins), and whether the following `build` succeeds.

Modules: `Common` (common.dfy), `GetFlushState` (get_flush_state.dfy),
`GetFlushAllState` (get_flush_all_state.dfy), `ManualCompact`
(manual_compact.dfy), `CreateRole` (create_role.dfy), `SelectRole`
(select_role.dfy).

Two behaviours follow the code rather than the general description of the
builder pattern:

- `GetFlushStateParam` makes no defensive copy of the segment-id list. An id
  appended to the builder after `build()` is visible through the built param
  (`GetFlushState.AddAfterBuild`).
- `GetFlushAllStateParam` does not default its timestamp to 0. The builder
  holds a `null` `Long` until `withFlushAllTs` is called. The constructor
  unboxes it into a `long`, so building without the timestamp throws
  `NullPointerException`, not `ParamException`.

## Model

| member | source | states |
|---|---|---|
| `Common.CheckNullEmptyString` | src/main/java/io/milvus/param/control/GetFlushStateParam.java:101 | a required string fails exactly when it is null or empty, with a parameter error naming the field; passing guarantees a present, non-empty string |
| `GetFlushState.NewBuilder` | src/main/java/io/milvus/param/control/GetFlushStateParam.java:56-63 | a fresh builder has no database or collection name, timestamp 0, and an empty segment list it alone owns |
| `GetFlushState.WithDatabaseName` | src/main/java/io/milvus/param/control/GetFlushStateParam.java:71-74 | any database name, null included, is accepted; the other fields and the list object are untouched |
| `GetFlushState.WithCollectionName` | src/main/java/io/milvus/param/control/GetFlushStateParam.java:106-109 | fails with NullArg exactly for null; the empty name is accepted; only the collection name changes |
| `GetFlushState.WithFlushTs` | src/main/java/io/milvus/param/control/GetFlushStateParam.java:117-120 | fails with NullArg exactly for null; otherwise only the timestamp changes |
| `GetFlushState.AddSegmentID` | src/main/java/io/milvus/param/control/GetFlushStateParam.java:94-98 | a null id is refused with the list unchanged; otherwise the id is appended at the end |
| `GetFlushState.WithSegmentIDs` | src/main/java/io/milvus/param/control/GetFlushStateParam.java:82-86 | a null list is refused with the list unchanged; otherwise all its elements are appended in order, repeats and null elements kept |
| `GetFlushState.Build` | src/main/java/io/milvus/param/control/GetFlushStateParam.java:127-131 | fails with ParamError("Collection name") exactly when the collection name is null or empty; on success the names and timestamp are copied and the param holds the builder's own list object |
| `GetFlushState.AddEachMatchesAddAll` | src/main/java/io/milvus/param/control/GetFlushStateParam.java:82-98 | adding ids one at a time gives the same list as adding them all at once: the ids in order, with no de-duplication |
| `GetFlushState.AddAfterBuild` | src/main/java/io/milvus/param/control/GetFlushStateParam.java:42-47 | an id appended to the builder after a successful build appears in the already-built param's list |
| `GetFlushState.NameAndTimestampThenBuild` | src/main/java/io/milvus/param/control/GetFlushStateParam.java:56-60 | a fresh builder given a name and timestamp builds exactly when the name is non-empty, with null database name and empty list by default; a later id shows through the param |
| `GetFlushState.BuildFreshBuilder` | src/main/java/io/milvus/param/control/GetFlushStateParam.java:58 | building a fresh builder fails with ParamError("Collection name") |
| `GetFlushState.LastCollectionNameWins` | src/main/java/io/milvus/param/control/GetFlushStateParam.java:106-109 | a second collection-name setter overrides the first |
| `GetFlushState.LastFlushTsWins` | src/main/java/io/milvus/param/control/GetFlushStateParam.java:117-120 | a second timestamp setter overrides the first |
| `GetFlushState.ValueSettersCommute` | src/main/java/io/milvus/param/control/GetFlushStateParam.java:71-120 | each pair of value setters (database name, collection name, timestamp) can be applied in either order with the same result |
| `SelectRole.FlagDefaultsToFalse` | src/main/java/io/milvus/param/role/SelectRoleParam.java:48-49 | a fresh builder given only a non-empty role name builds a param that does not ask for user info |
| `SelectRole.NewBuilder` | src/main/java/io/milvus/param/role/SelectRoleParam.java:40-52 | a fresh builder has a null role name and the flag false |
| `SelectRole.Apply` | src/main/java/io/milvus/param/role/SelectRoleParam.java:60-74 | one setter call throws exactly when it is the role-name setter given null, and then with NullArg |
| `SelectRole.Chain` | src/main/java/io/milvus/param/role/SelectRoleParam.java:60-74 | a chain of setters that throws, throws NullArg, never a parameter error |
| `SelectRole.WithRoleName` | src/main/java/io/milvus/param/role/SelectRoleParam.java:60-63 | fails with NullArg exactly for null; the empty name is accepted; the flag is kept |
| `SelectRole.WithIncludeUserInfo` | src/main/java/io/milvus/param/role/SelectRoleParam.java:71-74 | never fails; sets the flag to either value and keeps the role name |
| `SelectRole.Build` | src/main/java/io/milvus/param/role/SelectRoleParam.java:81-85 | fails with ParamError("RoleName") exactly when the role name is null or empty; on success the name and flag are copied |
| `SelectRole.ChainFailsOnNullRoleName` | src/main/java/io/milvus/param/role/SelectRoleParam.java:60-74 | any chain of setters throws NullArg exactly when one of its role-name calls gets null |
| `SelectRole.ChainKeepsLastWrites` | src/main/java/io/milvus/param/role/SelectRoleParam.java:60-74 | after any chain each field holds the last value written to it, or the builder's value if never written |
| `SelectRole.NameAndFlagThenBuild` | src/main/java/io/milvus/param/role/SelectRoleParam.java:35-38 | newBuilder, role name, flag, build: fails with ParamError("RoleName") for the empty name, else a param with both values |
| `SelectRole.FlagAloneFails` | src/main/java/io/milvus/param/role/SelectRoleParam.java:81-85 | a builder whose role name was never set cannot be built, whatever the flag |
| `SelectRole.SettersCommute` | src/main/java/io/milvus/param/role/SelectRoleParam.java:60-74 | the role-name and flag setters can be applied in either order |
| `GetFlushAllState.NewBuilder` | src/main/java/io/milvus/param/control/GetFlushAllStateParam.java:42-54 | a fresh builder has a null database name and a null staged timestamp |
| `GetFlushAllState.Apply` | src/main/java/io/milvus/param/control/GetFlushAllStateParam.java:62-70 | one setter call throws exactly when it is the timestamp setter given null, and then with NullArg |
| `GetFlushAllState.Chain` | src/main/java/io/milvus/param/control/GetFlushAllStateParam.java:62-70 | a chain of setters that throws, throws NullArg, never a parameter error |
| `GetFlushAllState.WithDatabaseName` | src/main/java/io/milvus/param/control/GetFlushAllStateParam.java:62-65 | any database name, null included, is accepted; the timestamp is kept |
| `GetFlushAllState.WithFlushAllTs` | src/main/java/io/milvus/param/control/GetFlushAllStateParam.java:67-70 | fails with NullArg exactly for null; otherwise stores the timestamp and keeps the database name |
| `GetFlushAllState.Build` | src/main/java/io/milvus/param/control/GetFlushAllStateParam.java:37-40 | fails with NullArg exactly when the staged timestamp is null (unboxing); otherwise copies the timestamp and any database name |
| `GetFlushAllState.BuildNeverRaisesParamError` | src/main/java/io/milvus/param/control/GetFlushAllStateParam.java:78-80 | build never reports a parameter error |
| `GetFlushAllState.BuildWithoutTimestampFails` | src/main/java/io/milvus/param/control/GetFlushAllStateParam.java:35-51 | building without a timestamp throws NullArg, with or without a database name |
| `GetFlushAllState.SetTimestampThenBuild` | src/main/java/io/milvus/param/control/GetFlushAllStateParam.java:67-80 | after the timestamp setter, build succeeds with that timestamp and the builder's database name, which is null for a fresh builder |
| `GetFlushAllState.ChainThenBuild` | src/main/java/io/milvus/param/control/GetFlushAllStateParam.java:62-80 | any chain of setters throws exactly when a timestamp call gets null; otherwise the next build succeeds exactly when the timestamp was set somewhere |
| `ManualCompact.NewBuilder` | src/main/java/io/milvus/param/control/ManualCompactParam.java:42-53 | a fresh builder has a null collection name |
| `ManualCompact.WithCollectionName` | src/main/java/io/milvus/param/control/ManualCompactParam.java:61-64 | fails with NullArg exactly for null; the empty name is accepted and stored |
| `ManualCompact.Build` | src/main/java/io/milvus/param/control/ManualCompactParam.java:71-75 | fails with ParamError("Collection name") exactly when the name is null or empty; on success the param carries the name |
| `ManualCompact.FreshBuilderFails` | src/main/java/io/milvus/param/control/ManualCompactParam.java:50 | a fresh builder has no collection name, so building it fails with ParamError("Collection name") |
| `ManualCompact.SetThenBuild` | src/main/java/io/milvus/param/control/ManualCompactParam.java:61-75 | a set empty name fails at build; any other set name builds into the param |
| `ManualCompact.LastCollectionNameWins` | src/main/java/io/milvus/param/control/ManualCompactParam.java:61-64 | a second collection-name setter overrides the first |
| `CreateRole.NewBuilder` | src/main/java/io/milvus/param/role/CreateRoleParam.java:38-49 | a fresh builder has a null role name |
| `CreateRole.WithRoleName` | src/main/java/io/milvus/param/role/CreateRoleParam.java:57-60 | fails with NullArg exactly for null; the empty name is accepted and stored |
| `CreateRole.Build` | src/main/java/io/milvus/param/role/CreateRoleParam.java:67-71 | fails with ParamError("RoleName") exactly when the name is null or empty; on success the param carries the name |
| `CreateRole.FreshBuilderFails` | src/main/java/io/milvus/param/role/CreateRoleParam.java:46 | a fresh builder has no role name, so building it fails with ParamError("RoleName") |
| `CreateRole.SetThenBuild` | src/main/java/io/milvus/param/role/CreateRoleParam.java:57-71 | a set empty name fails at build; any other set name builds into the param |
| `CreateRole.LastRoleNameWins` | src/main/java/io/milvus/param/role/CreateRoleParam.java:57-60 | a second role-name setter overrides the first |
| `CreateRole.RebuildAfterFailure` | src/main/java/io/milvus/param/role/CreateRoleParam.java:67-71 | after a failed build the same builder, given a non-empty name, builds successfully |

## Left out

- `ParamUtils.CheckNullEmptyString` and `ParamException` are not part of this model. The check is modelled from the builders' doc comments as "null or empty string fails, naming the field". Whitespace-only names count as non-empty here and build successfully; how the real helper treats them is not visible. The exception's message text is not modelled.
- The Lombok-generated getters and `toString` are left out. The getters are plain field projections (the datatype fields here), and the string format is not visible.
- The `@NonNull` on each param's private constructor is left out, because `build()` always passes `this`.
- The RPC transport and the server's flush, compaction and role semantics are left out. These classes only shape requests.
- In-place mutation of a builder object is left out, except for the segment-id list. In Java every setter assigns a field of the one builder object and returns `this`; here a setter returns a new builder value. Two consequences are not captured. (1) A setter that ran before a later setter in the same chain threw keeps its effect on a builder the caller still holds: after `b.withIncludeUserInfo(true).withRoleName(null)` throws, `b`'s flag is true, whereas `Chain` returns only `Err(NullArg)`, and `SelectRole.SettersCommute` equates that order with the reverse one. (2) `b2 = b.withX(..)` is `b` itself, so a later setter on `b` also changes what `b2.build()` returns; here `b` and `b2` are separate values.
- Thread-safety and sharing across threads are left out, because they concern concurrency. The model is sequential.
- `Long` values are treated as opaque members of the 64-bit range (`Int64`). The code does no arithmetic on them, so no wrap-around can occur.
