# EventDrivenThinking core in Dafny

This project models three parts of the EventDrivenThinking framework (a C# library
for event-sourced applications) and proves properties about them:

- **`TypeCollection`** (module `TypeCollections`, file `type_collection.dfy`). This is the
  immutable collection of types that fingerprints the event types a projection
  handles. The constructor keeps a `Type[]` as it is and deduplicates any other
  enumerable in the order each type first appears. The hash is `ToGuid` of the
  sorted full names, concatenated. Two collections are equal when their hashes
  are. The model proves:
  - the order and uniqueness that `Distinct` guarantees;
  - that `Count` of an enumerable source is its number of distinct types;
  - that the indexer and the enumerator agree;
  - that the hash does not depend on the order of the stored types, and so, for an
    enumerable source, not on the order or repetition of its input; an array is
    stored with its duplicates, which do change the hash;
  - that equality is an equivalence;
  - that the hash does not tell collections apart: names are joined without
    a separator, so `{AB, C}` equals `{A, BC}`.
- **`Services`** (module `Configuration`, file `services.dfy`). This is the configuration
  object with six schema-register properties. A getter creates the default
  register on first read. A setter throws once the slot holds a register, whether
  that register was set or created by a read. There is a type-keyed extension
  table, and a lazily built dictionary of the six registers. `AddSchemaRegister`,
  `GetSchemaRegister` and `Registers` read that dictionary. The class keeps the
  invariant `Valid()`: once the dictionary exists, it holds the instances the
  getters return, each under its own schema type, beside any register added
  later for another schema type.
  `ConfigurationScenarios` (`services_scenarios.dfy`) proves call sequences on
  one object.
- **`QueryEngine<TModel>`** (module `QueryProcessing`, file `query_engine.dfy`). This is
  the live-query engine:
  - a lazily created model;
  - `Execute`, which resolves a query's partition, creates a `LiveQuery`, finds
    or builds the record of its projection stream, subscribes it, computes the
    first result and indexes the query;
  - `OnQueryDispose`, which removes a query from both indices;
  - `OnEvents`, which projects a batch onto the model and refreshes the
    matching live queries;
  - the handler factory and the event handler that a subscription uses.

  The invariant `QueryEngine.Valid()` states how the global index, the root
  record and the subscription log fit together. `QueryScenarios`
  (`query_scenarios.dfy`) proves:
  - that root queries share one subscription;
  - that partitioned queries subscribe again on every call;
  - what disposal does;
  - the path from a subscription to an updated result.

Supporting modules:
- `Wrappers`: `Option`, `Result` and `Outcome`, and the .NET exception kinds the code throws.
- `Clr`: `Type` as assembly and full name, `Guid`, the dictionary operations
  `Add`, the indexer and `TryAdd`, and LINQ `SingleOrDefault`.
- `OrdinalStrings`: ordinal string order and an insertion sort, with the proof
  that a sorted permutation is unique.

The model follows the code as written, including these behaviours a reader might not expect:
- Partitioned stream records are never stored: the insertion into `_partitions`
  is commented out at `QueryEngine.cs:254`. So every partitioned `Execute`
  subscribes again and gets a record of its own.
- Disposing a partitioned live query that is still in the global index looks its
  record up with the indexer, so it throws `KeyNotFoundException`. By then the
  query has already been removed from the index, and its status does not become
  `Disposed`. A later dispose of the same live query finds nothing to remove,
  succeeds, and marks it `Disposed`.
- `LiveQuery.Dispose` is not idempotent. Disposing twice raises `StatusChanged` twice.
- Results are not rejected after disposal.
- `CreateHandler` does not check `SupportedEventTypes`.
- The handler a subscription creates calls `OnResult`, not `OnUpdate`. Only
  `OnEvents` calls `OnUpdate`.
- The projection register's setter message names `IProjectionSchema`
  (`Services.cs:138`).

## Model

| member | source | states |
|---|---|---|
| Clr.TryAdd | EventDrivenThinking/EventInference/QueryProcessing/QueryEngine.cs:287 | `ConcurrentDictionary.TryAdd` keeps an existing entry and otherwise adds the new one; no other key changes |
| Clr.Add | EventDrivenThinking/App/Configuration/Services.cs:30 | `Dictionary.Add` throws `ArgumentException` exactly when the key is present; otherwise it adds exactly that entry and keeps the rest |
| Clr.Get | EventDrivenThinking/App/Configuration/Services.cs:48 | the dictionary indexer returns the stored value, and throws `KeyNotFoundException` exactly when the key is absent |
| Clr.SingleOrDefault | EventDrivenThinking/EventInference/QueryProcessing/QueryEngine.cs:230-233 | no element gives the default, one element gives that element, and more than one throws `InvalidOperationException` with the LINQ message |
| OrdinalStrings.LessEqReflexive | EventDrivenThinking/Utils/TypeCollection.cs:39 | the string order used by `OrderBy` is reflexive |
| OrdinalStrings.LessEqAntisymmetric | EventDrivenThinking/Utils/TypeCollection.cs:39 | the order is antisymmetric, so it ranks no two different names alike |
| OrdinalStrings.LessEqTransitive | EventDrivenThinking/Utils/TypeCollection.cs:39 | the order is transitive |
| OrdinalStrings.LessEqTotal | EventDrivenThinking/Utils/TypeCollection.cs:39 | any two names are comparable |
| OrdinalStrings.Insert | EventDrivenThinking/Utils/TypeCollection.cs:39 | inserting into a sorted sequence gives a sorted sequence with one more occurrence of the name |
| OrdinalStrings.Sort | EventDrivenThinking/Utils/TypeCollection.cs:39 | `OrderBy(x => x)` gives a sorted permutation of the names |
| OrdinalStrings.SortedUnique | EventDrivenThinking/Utils/TypeCollection.cs:39 | two sorted sequences with the same elements are equal |
| OrdinalStrings.SortPermutationInvariant | EventDrivenThinking/Utils/TypeCollection.cs:39 | sorting permuted inputs gives the same output |
| TypeCollections.FirstIndex | EventDrivenThinking/Utils/TypeCollection.cs:18 | the position where a type first occurs in the input |
| TypeCollections.Distinct | EventDrivenThinking/Utils/TypeCollection.cs:18 | `Distinct()` has no duplicates, has the same members as its input, and keeps them in first-occurrence order |
| TypeCollections.Create | EventDrivenThinking/Utils/TypeCollection.cs:16-20 | an array source is stored as it is, and any other enumerable is stored deduplicated |
| TypeCollections.FromArray | EventDrivenThinking/Utils/TypeCollection.cs:29-32 | the array conversion stores the array unchanged, duplicates included |
| TypeCollections.FromList | EventDrivenThinking/Utils/TypeCollection.cs:33-36 | the list conversion stores each member of the list exactly once |
| TypeCollections.Scan | EventDrivenThinking/Utils/TypeCollection.cs:27 | the array scan finds a type exactly when it occurs |
| TypeCollections.Contains | EventDrivenThinking/Utils/TypeCollection.cs:25-28 | `Contains(t)` holds exactly when some stored position holds `t` |
| TypeCollections.Item | EventDrivenThinking/Utils/TypeCollection.cs:63 | the indexer succeeds exactly on `0 .. Count - 1`, and throws `IndexOutOfRangeException` elsewhere |
| TypeCollections.Enumerate | EventDrivenThinking/Utils/TypeCollection.cs:42-47 | the enumerator yields `Count` types, and the i-th is what the indexer returns at i |
| TypeCollections.ContainsIffIndexed | EventDrivenThinking/Utils/TypeCollection.cs:21-28 | `Contains` agrees with the indexer in both directions |
| TypeCollections.DistinctCount | EventDrivenThinking/Utils/TypeCollection.cs:18 | the deduplicated array has one element per distinct input type |
| TypeCollections.CountOfEnumerable | EventDrivenThinking/Utils/TypeCollection.cs:61 | `Count` of an enumerable source is its number of distinct types, and at most its length |
| TypeCollections.CardinalityOfElements | EventDrivenThinking/Utils/TypeCollection.cs:61 | a sequence has no more distinct members than elements |
| TypeCollections.FullNames | EventDrivenThinking/Utils/TypeCollection.cs:39 | `Select(x => x.FullName)` maps each position to that type's full name |
| TypeCollections.FullNamesPermutation | EventDrivenThinking/Utils/TypeCollection.cs:39 | permuted types give permuted full names |
| TypeCollections.HashPermutationInvariant | EventDrivenThinking/Utils/TypeCollection.cs:37-40 | the hash input, and so the hash and equality, depend only on the multiset of types |
| TypeCollections.ArrayDuplicatesHashed | EventDrivenThinking/Utils/TypeCollection.cs:18-39 | an array source keeps its duplicates, and they reach the hash input: `[p, p]` hashes the name twice, `[p]` once |
| TypeCollections.SameMembersEqual | EventDrivenThinking/Utils/TypeCollection.cs:16-20 | enumerables with the same members, in any order and with any repetition, build equal collections |
| TypeCollections.EqualsIsEquivalence | EventDrivenThinking/Utils/TypeCollection.cs:54-59 | `Equals` is reflexive, symmetric and transitive on non-null collections and false for null |
| TypeCollections.HashNotInjective | EventDrivenThinking/Utils/TypeCollection.cs:37-40 | names joined without a separator make `{AB, C}` equal to `{A, BC}`, although only one contains `AB` |
| Configuration.SchemaOfInjective | EventDrivenThinking/App/Configuration/Services.cs:57-62 | the six properties have six different schema types |
| Configuration.AddEntry | EventDrivenThinking/App/Configuration/Services.cs:27-32 | `AddSchemaInDict` throws `ArgumentException` exactly when the schema type is present, and otherwise appends exactly that entry |
| Configuration.AddEntryValid | EventDrivenThinking/App/Configuration/Services.cs:27-32 | an addition keeps the dictionary well formed (distinct keys, each register under its own schema type) |
| Configuration.DefaultDictionaryValid | EventDrivenThinking/App/Configuration/Services.cs:54-64 | the six-entry dictionary is well formed and holds each property's register under that property's schema type |
| Configuration.FillDictionary | EventDrivenThinking/App/Configuration/Services.cs:54-64 | the factory's six additions never throw; the result holds the six registers in order commands, aggregates, projections, processors, queries, events |
| Configuration.Services.constructor | EventDrivenThinking/App/Configuration/Services.cs:51-65 | the object starts with no extensions, empty register fields and an unbuilt dictionary |
| Configuration.Services.GetRegister | EventDrivenThinking/App/Configuration/Services.cs:66-177 | a getter returns the held register, or creates, stores and returns a fresh default; it changes no other slot |
| Configuration.Services.SetRegister | EventDrivenThinking/App/Configuration/Services.cs:66-177 | a setter throws "… has already been used." exactly when the slot holds a register, always once the dictionary is built; otherwise it stores the value |
| Configuration.Services.ReadAllRegisters | EventDrivenThinking/App/Configuration/Services.cs:57-62 | the six getter calls fill every slot and keep the registers already held |
| Configuration.Services.BuildRegister | EventDrivenThinking/App/Configuration/Services.cs:54-64 | the lazy factory builds the six-entry dictionary from the registers the getters return |
| Configuration.Services.ForceRegister | EventDrivenThinking/App/Configuration/Services.cs:19 | `_register.Value` is built once; every later read returns that dictionary unchanged, and it serves every slot's register |
| Configuration.Services.AddSchemaRegister | EventDrivenThinking/App/Configuration/Services.cs:21-26 | adds to the forced dictionary (built first if needed, so its keys are the six plus the new one) and throws `ArgumentException` exactly on a present schema type, so always for one of the six built-in types; held registers are kept |
| Configuration.Services.GetSchemaRegister | EventDrivenThinking/App/Configuration/Services.cs:33-38 | the indexer on the forced dictionary: the register stored for the type, or `KeyNotFoundException`; a built dictionary and the held registers stay as they were |
| Configuration.Services.Registers | EventDrivenThinking/App/Configuration/Services.cs:179-182 | the dictionary's values in insertion order, which include the register of every property; a built dictionary and the held registers stay as they were |
| Configuration.Services.AddExtension | EventDrivenThinking/App/Configuration/Services.cs:42-45 | throws `ArgumentException` exactly when the type is present; otherwise it stores the instance, which may be any object or null, under the type |
| Configuration.Services.ResolveExtension | EventDrivenThinking/App/Configuration/Services.cs:46-49 | the instance stored under the type; `KeyNotFoundException` when none is stored, and `InvalidCastException` when the stored object is not an instance of the type |
| ConfigurationScenarios.RepeatedGetsAgree | EventDrivenThinking/App/Configuration/Services.cs:66-77 | two reads of a property return the same instance |
| ConfigurationScenarios.SetThenGet | EventDrivenThinking/App/Configuration/Services.cs:66-83 | a register set on an unused slot is what the next read returns |
| ConfigurationScenarios.GetThenSetThrows | EventDrivenThinking/App/Configuration/Services.cs:66-83 | a read uses the slot up, so a later set throws |
| ConfigurationScenarios.ForcedRegisterFreezesSetters | EventDrivenThinking/App/Configuration/Services.cs:179-182 | after `Registers()` every setter throws, and `Registers()` contains what the getters return |
| ConfigurationScenarios.AddThenResolve | EventDrivenThinking/App/Configuration/Services.cs:42-49 | an added extension resolves to itself when it is null or an instance of the type, and the cast throws otherwise; a second add throws and keeps the first instance |
| ConfigurationScenarios.AddThenGetSchemaRegister | EventDrivenThinking/App/Configuration/Services.cs:21-38 | a register that `AddSchemaRegister` accepts is what `GetSchemaRegister` returns for its type; a rejected one leaves a register for that type in place |
| ConfigurationScenarios.RegistersTwiceAgree | EventDrivenThinking/App/Configuration/Services.cs:179-182 | two `Registers()` calls return the same registers |
| QueryProcessing.RootSubscriptions | EventDrivenThinking/EventInference/QueryProcessing/QueryEngine.cs:276-280 | the number of root subscriptions in the log: at most its length, and zero exactly when every call is partitioned |
| QueryProcessing.RootSubscriptionsAppend | EventDrivenThinking/EventInference/QueryProcessing/QueryEngine.cs:276-280 | one more subscribe call adds one root subscription exactly when it is unpartitioned |
| QueryProcessing.ProjectSingle | EventDrivenThinking/EventInference/QueryProcessing/QueryEngine.cs:343-344 | a one-event batch projects as the per-event handler does |
| QueryProcessing.ProjectConcat | EventDrivenThinking/EventInference/QueryProcessing/QueryEngine.cs:343-344 | projecting a batch equals projecting its parts in turn |
| QueryProcessing.LiveQuery.constructor | EventDrivenThinking/EventInference/QueryProcessing/QueryEngine.cs:136-145 | a live query starts `Created` with no result and no raised events |
| QueryProcessing.LiveQuery.OnResult | EventDrivenThinking/EventInference/QueryProcessing/QueryEngine.cs:147-152 | sets the result, moves to `Running` and raises `StatusChanged` |
| QueryProcessing.LiveQuery.OnUpdate | EventDrivenThinking/EventInference/QueryProcessing/QueryEngine.cs:154-158 | sets the result, keeps the status and raises `ResultUpdated` |
| QueryProcessing.LiveQuery.Dispose | EventDrivenThinking/EventInference/QueryProcessing/QueryEngine.cs:160-165 | runs the engine's disposal; if it returns, the query becomes `Disposed` and raises `StatusChanged`, and if it throws, the status is kept; the engine's model is untouched |
| QueryProcessing.ProjectionStreamInfo.constructor | EventDrivenThinking/EventInference/QueryProcessing/QueryEngine.cs:111-116 | a record starts with its partition, its root flag and no associated queries |
| QueryProcessing.QueryEventHandler.constructor | EventDrivenThinking/EventInference/QueryProcessing/QueryEngine.cs:52-58 | the handler keeps its projection, query handler, model and live query |
| QueryProcessing.QueryEventHandler.Execute | EventDrivenThinking/EventInference/QueryProcessing/QueryEngine.cs:60-67 | projects the event onto the model, then gives the live query the query's result on the new state through `OnResult` |
| QueryProcessing.QueryEngineHandlerFactory.constructor | EventDrivenThinking/EventInference/QueryProcessing/QueryEngine.cs:77-88 | `SupportedEventTypes` is the `TypeCollection` built from the schema's events |
| QueryProcessing.QueryEngineHandlerFactory.CreateHandler | EventDrivenThinking/EventInference/QueryProcessing/QueryEngine.cs:89-95 | a fresh handler on the engine's model (created if needed) and the factory's live query |
| QueryProcessing.QueryEngine.constructor | EventDrivenThinking/EventInference/QueryProcessing/QueryEngine.cs:188-204 | an engine starts with no model, empty indices, no subscriptions and `Valid()` |
| QueryProcessing.QueryEngine.PartitionOf | EventDrivenThinking/EventInference/QueryProcessing/QueryEngine.cs:230-233 | no partitioner means no partition, one partitioner gives its answer (a partition or none) on the model, several throw `InvalidOperationException`, and a partition can only come from a single partitioner |
| QueryProcessing.QueryEngine.GetModel | EventDrivenThinking/EventInference/QueryProcessing/QueryEngine.cs:206-213 | the model is created from the initial state on the first call, and every call returns that one instance |
| QueryProcessing.QueryEngine.ResolvePartition | EventDrivenThinking/EventInference/QueryProcessing/QueryEngine.cs:230-233 | the partition step of `Execute` computes `PartitionOf` on the current model and leaves the indices alone |
| QueryProcessing.QueryEngine.StreamFor | EventDrivenThinking/EventInference/QueryProcessing/QueryEngine.cs:237-292 | a stored record is reused; a missing one is built and subscribed once, and stored only for the root stream |
| QueryProcessing.QueryEngine.Attach | EventDrivenThinking/EventInference/QueryProcessing/QueryEngine.cs:262-267 | the first result is the query run on the model; the query then goes into the record and the global index with `TryAdd`, keeping `Valid()` |
| QueryProcessing.QueryEngine.Execute | EventDrivenThinking/EventInference/QueryProcessing/QueryEngine.cs:222-308 | throws exactly when there are several partitioners; otherwise returns a fresh `Running` live query with its first result, reuses or subscribes the stream record as above, leaves every other stored record as it was, and keeps `Valid()` |
| QueryProcessing.QueryEngine.OnQueryDispose | EventDrivenThinking/EventInference/QueryProcessing/QueryEngine.cs:325-333 | removes the query from the index and from its stored record; it succeeds when the query is not indexed or is a root query, and throws `KeyNotFoundException` for an indexed partitioned one; the model is untouched |
| QueryProcessing.QueryEngine.OnEvents | EventDrivenThinking/EventInference/QueryProcessing/QueryEngine.cs:335-354 | the model becomes the batch projected onto it; every live query of the record with the given type arguments gets the query's new result through `OnUpdate`, and the others are unchanged |
| QueryScenarios.ModelIsCreatedOnce | EventDrivenThinking/EventInference/QueryProcessing/QueryEngine.cs:206-213 | two model reads give the same instance |
| QueryScenarios.RootQueriesShareOneSubscription | EventDrivenThinking/EventInference/QueryProcessing/QueryEngine.cs:270-302 | two unpartitioned queries share the root record, and the root stream has exactly one subscription |
| QueryScenarios.PartitionedQueriesSubscribeEveryTime | EventDrivenThinking/EventInference/QueryProcessing/QueryEngine.cs:237-269 | the same partitioned query executed twice subscribes twice and stores no record |
| QueryScenarios.RootQueryDisposedTwice | EventDrivenThinking/EventInference/QueryProcessing/QueryEngine.cs:160-165 | disposing a root query twice succeeds twice, removes it from both indices and raises `StatusChanged` twice more |
| QueryScenarios.PartitionedQueryDisposeThrows | EventDrivenThinking/EventInference/QueryProcessing/QueryEngine.cs:325-333 | disposing a partitioned query throws `KeyNotFoundException` after removing it from the index; it stays `Running` |
| QueryScenarios.PartitionedQueryDisposedTwice | EventDrivenThinking/EventInference/QueryProcessing/QueryEngine.cs:160-165 | a second dispose of a partitioned query finds it gone from the index, succeeds and marks it `Disposed` |
| QueryScenarios.RootQuerySurvivesPartitionedCall | EventDrivenThinking/EventInference/QueryProcessing/QueryEngine.cs:237-269 | a partitioned `Execute` leaves a root query in the root record |
| QueryScenarios.DisposeKeepsModel | EventDrivenThinking/EventInference/QueryProcessing/QueryEngine.cs:325-333 | disposing a live query keeps the engine's model instance |
| QueryScenarios.SubscribedHandlerRunsQuery | EventDrivenThinking/EventInference/QueryProcessing/QueryEngine.cs:89-95 | a handler created by a new root subscription's factory projects the event and sets the query's result on the projected model |

## Left out

- Concurrency: the engine's `ConcurrentDictionary`s, the dispatcher queue
  (`EnqueueEvents`), `async`/`await` and `Thread.Sleep` are left out. Each public
  call is one sequential step.
- Logging (`Log.Debug`) has no effect on state and is left out.
- Dependency injection: `ActivatorUtilities`, `GetService` and the `IQueryHandler` /
  `IProjection` implementations are calls into code that is not shown. The query
  handler is modelled as a function `handler(state, query)`. A projection of one
  event is modelled as a function `applyEvent(state, event)`, and a batch as the
  fold `Project` over its events in order. The model is a fresh `ReadModel`, not a
  container singleton.
- The `ProjectionEventStream` subscription controller is not part of this model.
  `SubscribeHandlers` is recorded as an entry of the `subscriptions` log and never
  fails. The returned `ISubscription` is not stored, just as the source never sets
  `ProjectionStreamInfo.Subscription`.
- `QueryOptions` and the schema register lookup `GetByQueryType` are left out.
  The projection schema found by `FindByModelType` is a constant of the engine.
- Types and generics: a query type is identified by a `ClrType` value, and
  partitioners are a function from the query type to the registered partitioners.
  Generic type arguments of `CreateHandler<TEvent>` and the `projectionType`
  argument of `OnEvents` do not appear.
- `OrdinalStrings.Sort`: `OrderBy` on strings uses the current culture's
  collation. The model uses ordinal order, so the hash is stated relative to that
  order.
- `TypeCollections.Hash`: the `ToGuid` extension is not part of this
  model. It is a parameter, so its internal collisions are not modelled.
- `TypeCollections.Hash`: the `Lazy<Guid>` cache is not modelled. The hash is a
  pure function of the stored array, which every read of the cache returns.
- `QueryProcessing.LiveQuery.OnUpdate`: `Result.CopyFrom(result)` copies into
  the existing result object. The model replaces the result with an equal value,
  so it does not capture aliasing of that object.
- `Configuration.Services.GetRegister`: the concrete default register classes (`QuerySchemaRegister`,
  `CommandsSchemaRegister`, …) are not part of this model. A default register is
  a fresh `SchemaRegister` carrying its schema type.
- `Configuration.Services.SetRegister`: the C# property types force a register of
  the slot's own interface. The model states this as a precondition on `value`.
- `Configuration.Services.ReadAllRegisters`: does not state that the registers it
  creates for empty slots are fresh objects, only that they fill those slots.
  Each underlying `GetRegister` call does state it.
- `Configuration.Services.BuildRegister`: does not state freshness of newly
  created registers, for the same reason.
- `Configuration.Services.ForceRegister`: does not state freshness of newly
  created registers, for the same reason.
- `TypeCollections.Create`: the source keeps the caller's `Type[]` by reference
  (a cast, no copy), so a later write to that array changes `Contains`, the
  indexer and, until the lazy hash is first read, the hash. The model stores the
  array as a value and does not capture that aliasing.
- `Configuration.Services.Registers`: the source returns the live
  `Dictionary.ValueCollection`, which a later `AddSchemaRegister` extends. The
  model returns the values at the time of the call and does not capture that
  aliasing.
- `Configuration.Services.ResolveExtension`: whether an object is an instance of
  a type is a parameter `isInstance`, since the runtime type system is not part of
  this model. A null instance passes the cast; the `NullReferenceException` of
  unboxing null to a value type `T` is not modelled.
- `QueryProcessing.QueryEngine.PartitionOf`: `IQueryPartitioner` is not part of
  this model. A partitioner is a function giving a partition id or none, which
  covers both a `Guid` and a `Guid?` result of `CalculatePartition`.
- `Configuration.Services.AddSchemaRegister`: a null register argument is not
  modelled.
- `Configuration.Services.AddSchemaRegister`: a type `T` other than the six
  built-ins is modelled as `OtherSchema`.
- `TypeCollections.Create`: null is not modelled. `new TypeCollection(null)`
  throws `ArgumentNullException` from `Distinct` (`TypeCollection.cs:18`); a null
  element of an array makes the first hash read, and so `Equals`, throw
  `NullReferenceException` at `x.FullName` (line 39); a null `FullName` (a generic
  parameter type) would sort first and concatenate as the empty string.
- Null values in general are not modelled except where stated (register setters,
  extension instances): types, queries and results are never null in the model.
  In particular a null query makes `TryAdd` throw `ArgumentNullException` at
  `QueryEngine.cs:266` and `:299`, after `OnResult` and after any subscription.
- The `Bootstrapper`, the event store classes and the tests are not part of this model.
