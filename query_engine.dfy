/** The live-query engine of one read model (`QueryEngine<TModel>`): it holds the
    model, runs queries against it, keeps every running query in a global index and
    in the record of the projection stream that feeds it, subscribes to streams, and
    refreshes the results of running queries when events arrive.

    Type parameters throughout: `S` is the state of the model, `Q` a query value
    (the key of both dictionaries), `R` a query result and `E` one delivered
    `(EventMetadata, event)` pair. Each call of `Execute`, `Dispose` and `OnEvents`
    is one sequential step. */
module QueryProcessing {
  import opened Wrappers
  import opened Clr
  import TypeCollections

  /** `LiveQueryStatus`. A live query starts as `Created`. */
  datatype LiveQueryStatus = Created | Running | Disposed

  /** The two C# events a live query raises. */
  datatype Notification = StatusChanged | ResultUpdated

  /** The parts of an `IProjectionSchema` the engine reads. `Events` is whatever the
      schema enumerates, handed to the `TypeCollection` constructor as it is. */
  datatype ProjectionSchema = ProjectionSchema(projectionType: ClrType, modelType: ClrType,
                                               events: TypeCollections.TypeSource)

  /** One call of `IProjectionSubscriptionController.SubscribeHandlers`: the
      partition is `None` for the root stream. */
  datatype SubscribeCall<S, Q(==), R, E> =
    SubscribeCall(schema: ProjectionSchema, partition: Option<Guid>,
                  factory: QueryEngineHandlerFactory<S, Q, R, E>)

  /** The number of subscriptions to the root stream. */
  function RootSubscriptions<S, Q(==), R, E>(calls: seq<SubscribeCall<S, Q, R, E>>): (n: nat)
    ensures n <= |calls|
    ensures n == 0 <==> forall i :: 0 <= i < |calls| ==> calls[i].partition.Some?
  {
    if calls == [] then 0
    else RootSubscriptions(calls[..|calls| - 1]) + (if calls[|calls| - 1].partition.None? then 1 else 0)
  }

  lemma RootSubscriptionsAppend<S, Q, R, E>(calls: seq<SubscribeCall<S, Q, R, E>>, call: SubscribeCall<S, Q, R, E>)
    ensures RootSubscriptions(calls + [call]) == RootSubscriptions(calls) + (if call.partition.None? then 1 else 0)
  {
    assert (calls + [call])[..|calls|] == calls;
  }

  /** A batch of events applied to the model in delivery order, each by the
      per-event projection. */
  function Project<S, E>(applyEvent: (S, E) -> S, state: S, events: seq<E>): S
    decreases |events|
  {
    if events == [] then state else Project(applyEvent, applyEvent(state, events[0]), events[1..])
  }

  /** One event of a batch is projected as the per-event handler projects it. */
  lemma ProjectSingle<S, E>(applyEvent: (S, E) -> S, state: S, event: E)
    ensures Project(applyEvent, state, [event]) == applyEvent(state, event)
  {
    assert [event][1..] == [];
  }

  /** Projecting a batch is projecting its parts one after the other, so a batch
      delivered to `OnEvents` leaves the model as the same events delivered one by
      one to the handlers a factory creates. */
  lemma {:induction false} ProjectConcat<S, E>(applyEvent: (S, E) -> S, state: S, a: seq<E>, b: seq<E>)
    ensures Project(applyEvent, state, a + b) == Project(applyEvent, Project(applyEvent, state, a), b)
    decreases |a|
  {
    if a == [] {
      assert a + b == b;
    } else {
      assert (a + b)[0] == a[0];
      assert (a + b)[1..] == a[1..] + b;
      ProjectConcat(applyEvent, applyEvent(state, a[0]), a[1..], b);
    }
  }

  /** The `TModel` instance: its state is changed in place by the projections. */
  class ReadModel<S> {
    var state: S

    constructor (state: S)
      ensures this.state == state
    {
      this.state := state;
    }
  }

  /** `LiveQuery<TQuery, TResult>`. `queryType` and `resultType` are its type
      arguments; `engine` is the target of its disposal callback, which is always
      `OnQueryDispose` of the engine that created it. */
  class LiveQuery<S, Q(==), R, E> {
    const query: Q
    const partitionId: Option<Guid>
    const queryType: ClrType
    const resultType: ClrType
    const engine: QueryEngine<S, Q, R, E>
    var status: LiveQueryStatus
    /** `None` until the first result. */
    var result: Option<R>
    /** The `StatusChanged` and `ResultUpdated` events raised so far, in order. */
    var raised: seq<Notification>

    constructor (query: Q, partitionId: Option<Guid>, queryType: ClrType, resultType: ClrType,
                 engine: QueryEngine<S, Q, R, E>)
      ensures this.query == query && this.partitionId == partitionId
      ensures this.queryType == queryType && this.resultType == resultType && this.engine == engine
      ensures status == Created && result == None && raised == []
    {
      this.query := query;
      this.partitionId := partitionId;
      this.queryType := queryType;
      this.resultType := resultType;
      this.engine := engine;
      status := Created;
      result := None;
      raised := [];
    }

    /** Stores the result, becomes `Running` and raises `StatusChanged`, whatever
        the status was before. */
    method OnResult(r: R)
      modifies this
      ensures result == Some(r) && status == Running
      ensures raised == old(raised) + [StatusChanged]
    {
      result := Some(r);
      status := Running;
      raised := raised + [StatusChanged];
    }

    /** Replaces the result and raises `ResultUpdated`; the status stays as it was. */
    method OnUpdate(r: R)
      modifies this
      ensures result == Some(r) && status == old(status)
      ensures raised == old(raised) + [ResultUpdated]
    {
      result := Some(r);
      raised := raised + [ResultUpdated];
    }

    /** Runs the disposal callback, then becomes `Disposed` and raises
        `StatusChanged`. A callback that throws leaves the status as it was. Nothing
        stops a second call, which runs the callback and raises the event again. */
    method Dispose() returns (o: Outcome)
      requires engine.Valid()
      modifies this, engine, engine.partitions.Values
      ensures engine.Valid()
      ensures engine.liveQueries == old(engine.liveQueries) - {query}
      ensures engine.partitions == old(engine.partitions) && engine.subscriptions == old(engine.subscriptions)
      ensures engine.model == old(engine.model)
      ensures o == engine.DisposalOutcome(old(engine.liveQueries), old(engine.partitions), query)
      ensures forall p :: p in engine.partitions ==>
                engine.partitions[p].associatedQueries ==
                  if query in old(engine.liveQueries) &&
                     old(engine.liveQueries[query].partitionId).GetOr(engine.rootPartitionId) == p
                  then old(engine.partitions[p].associatedQueries) - {query}
                  else old(engine.partitions[p].associatedQueries)
      ensures o.Pass? ==> status == Disposed && raised == old(raised) + [StatusChanged]
      ensures o.Fail? ==> status == old(status) && raised == old(raised)
      ensures result == old(result)
    {
      o := engine.OnQueryDispose(query);
      if o.Fail? {
        return;
      }
      status := Disposed;
      raised := raised + [StatusChanged];
    }
  }

  /** `ProjectionStreamInfo`: one subscribed stream and the live queries it feeds. */
  class ProjectionStreamInfo<S, Q(==), R, E> {
    const partitionId: Guid
    const isRootStream: bool
    var associatedQueries: map<Q, LiveQuery<S, Q, R, E>>

    constructor (partitionId: Guid, isRootStream: bool)
      ensures this.partitionId == partitionId && this.isRootStream == isRootStream
      ensures associatedQueries == map[]
    {
      this.partitionId := partitionId;
      this.isRootStream := isRootStream;
      associatedQueries := map[];
    }

    /** Every live query is filed under its own query value. */
    ghost predicate Keyed()
      reads this
    {
      forall q :: q in associatedQueries ==> associatedQueries[q].query == q
    }
  }

  /** `QueryEventHandler<TQuery, TEvent, TResult>`: bound to the model and to one
      live query when the factory creates it. */
  class QueryEventHandler<S, Q(==), R, E> {
    const applyEvent: (S, E) -> S
    const handler: (S, Q) -> R
    const model: ReadModel<S>
    const liveQuery: LiveQuery<S, Q, R, E>

    constructor (applyEvent: (S, E) -> S, handler: (S, Q) -> R, model: ReadModel<S>, liveQuery: LiveQuery<S, Q, R, E>)
      ensures this.applyEvent == applyEvent && this.handler == handler
      ensures this.model == model && this.liveQuery == liveQuery
    {
      this.applyEvent := applyEvent;
      this.handler := handler;
      this.model := model;
      this.liveQuery := liveQuery;
    }

    /** `Execute(m, ev)`: the projection handler first, then the query on the
        projected model, whose result goes to `OnResult` (not `OnUpdate`). */
    method Execute(event: E)
      modifies model, liveQuery
      ensures model.state == applyEvent(old(model.state), event)
      ensures liveQuery.result == Some(handler(model.state, liveQuery.query))
      ensures liveQuery.status == Running
      ensures liveQuery.raised == old(liveQuery.raised) + [StatusChanged]
    {
      model.state := applyEvent(model.state, event);
      var result := handler(model.state, liveQuery.query);
      liveQuery.OnResult(result);
    }
  }

  /** `QueryEngineHandlerFactory<TQuery, TResult>`: what a subscription calls to get
      a handler for each delivered event type. */
  class QueryEngineHandlerFactory<S, Q(==), R, E> {
    const engine: QueryEngine<S, Q, R, E>
    const streamInfo: ProjectionStreamInfo<S, Q, R, E>
    const liveQuery: LiveQuery<S, Q, R, E>
    const projectionSchema: ProjectionSchema
    const supportedEventTypes: TypeCollections.TypeCollection

    constructor (engine: QueryEngine<S, Q, R, E>, streamInfo: ProjectionStreamInfo<S, Q, R, E>,
                 liveQuery: LiveQuery<S, Q, R, E>, projectionSchema: ProjectionSchema)
      ensures this.engine == engine && this.streamInfo == streamInfo
      ensures this.liveQuery == liveQuery && this.projectionSchema == projectionSchema
      ensures supportedEventTypes == TypeCollections.Create(projectionSchema.events)
    {
      this.engine := engine;
      this.streamInfo := streamInfo;
      this.liveQuery := liveQuery;
      this.projectionSchema := projectionSchema;
      supportedEventTypes := TypeCollections.Create(projectionSchema.events);
    }

    /** `CreateHandler<TEvent>()`: a handler bound to the engine's model (created
        now if there is none yet) and to this factory's live query. The event type
        is not checked against `supportedEventTypes`. */
    method CreateHandler() returns (h: QueryEventHandler<S, Q, R, E>)
      modifies engine
      ensures fresh(h)
      ensures h.model == engine.model && h.liveQuery == liveQuery
      ensures h.applyEvent == engine.applyEvent && h.handler == engine.handler
      ensures old(engine.model) != null ==> engine.model == old(engine.model)
      ensures old(engine.model) == null ==> fresh(engine.model) && engine.model.state == engine.initialState
      ensures engine.liveQueries == old(engine.liveQueries) && engine.partitions == old(engine.partitions)
      ensures engine.subscriptions == old(engine.subscriptions)
    {
      var model := engine.GetModel();
      h := new QueryEventHandler(engine.applyEvent, engine.handler, model, liveQuery);
    }
  }

  /** `QueryEngine<TModel>`. The service lookups of the source are fixed at
      construction: the projection schema of the model, the query handler, the
      partitioners registered for each query type and the per-event projection.
      A partitioner answers a partition id or `None` (`null`, no partition).
      `rootPartitionId` is the `Guid.NewGuid()` drawn when the engine is created. */
  class QueryEngine<S, Q(==), R, E> {
    const initialState: S
    const projectionSchema: ProjectionSchema
    const handler: (S, Q) -> R
    const partitioners: ClrType -> seq<(S, Q) -> Option<Guid>>
    const applyEvent: (S, E) -> S
    const rootPartitionId: Guid
    /** `_model`: `null` until `GetModel` first runs. */
    var model: ReadModel?<S>
    /** `_liveQueries`, the global index. */
    var liveQueries: map<Q, LiveQuery<S, Q, R, E>>
    /** `_partitions`. */
    var partitions: map<Guid, ProjectionStreamInfo<S, Q, R, E>>
    /** The calls made to the subscription controller, in order. */
    var subscriptions: seq<SubscribeCall<S, Q, R, E>>

    /** What the code keeps true: only the root stream is ever stored in
        `_partitions`, under its own id; stream records and the global index file
        each live query under its own query value; a root live query in the index
        implies a stored root record; and the root stream has been subscribed to
        exactly once if its record is stored, and never otherwise. */
    ghost predicate Valid()
      reads this, partitions.Values
    {
      && (forall p :: p in partitions ==>
            && p == rootPartitionId
            && partitions[p].partitionId == p
            && partitions[p].isRootStream
            && partitions[p].Keyed())
      && (forall q :: q in liveQueries ==> liveQueries[q].query == q && liveQueries[q].engine == this)
      && (forall q :: q in liveQueries && liveQueries[q].partitionId.None? ==> rootPartitionId in partitions)
      && RootSubscriptions(subscriptions) == (if rootPartitionId in partitions then 1 else 0)
    }

    constructor (initialState: S, projectionSchema: ProjectionSchema, handler: (S, Q) -> R,
                 partitioners: ClrType -> seq<(S, Q) -> Option<Guid>>, applyEvent: (S, E) -> S, rootPartitionId: Guid)
      ensures Valid()
      ensures this.initialState == initialState && this.projectionSchema == projectionSchema
      ensures this.handler == handler && this.partitioners == partitioners
      ensures this.applyEvent == applyEvent && this.rootPartitionId == rootPartitionId
      ensures model == null && liveQueries == map[] && partitions == map[] && subscriptions == []
    {
      this.initialState := initialState;
      this.projectionSchema := projectionSchema;
      this.handler := handler;
      this.partitioners := partitioners;
      this.applyEvent := applyEvent;
      this.rootPartitionId := rootPartitionId;
      model := null;
      liveQueries := map[];
      partitions := map[];
      subscriptions := [];
    }

    /** The state `GetModel` would hand out now. */
    function CurrentState(): S
      reads this, model
    {
      if model == null then initialState else model.state
    }

    /** The partition of a query: `null` without a partitioner, the partitioner's
        answer on the current model with one, and an exception with several. */
    function PartitionOf(queryType: ClrType, state: S, query: Q): (r: Result<Option<Guid>>)
      ensures r.Failure? <==> |partitioners(queryType)| > 1
      ensures r.Failure? ==> r.error == InvalidOperationException("Sequence contains more than one element")
      ensures partitioners(queryType) == [] ==> r == Success(None)
      ensures |partitioners(queryType)| == 1 ==> r == Success(partitioners(queryType)[0](state, query))
      ensures r.Success? && r.value.Some? ==> |partitioners(queryType)| == 1
    {
      match SingleOrDefault(partitioners(queryType))
      case Failure(e) => Failure(e)
      case Success(None) => Success(None)
      case Success(Some(partitioner)) => Success(partitioner(state, query))
    }

    /** What `OnQueryDispose` returns for `query`, given the indices before the call. */
    function DisposalOutcome(index: map<Q, LiveQuery<S, Q, R, E>>, streams: map<Guid, ProjectionStreamInfo<S, Q, R, E>>,
                             query: Q): Outcome
    {
      if query !in index then Pass
      else if index[query].partitionId.GetOr(rootPartitionId) in streams then Pass
      else Fail(KeyNotFoundException)
    }

    /** `GetModel()`: creates the model on the first call only; every call returns
        the instance stored in `_model`. */
    method GetModel() returns (m: ReadModel<S>)
      modifies this
      ensures model == m
      ensures old(model) != null ==> m == old(model)
      ensures old(model) == null ==> fresh(m) && m.state == initialState
      ensures liveQueries == old(liveQueries) && partitions == old(partitions)
      ensures subscriptions == old(subscriptions)
    {
      if model == null {
        model := new ReadModel(initialState);
      }
      m := model;
    }

    /** The last three steps of both branches of `Execute`: the initial result, then
        `TryAdd` into the stream record and into the global index. */
    method Attach(stream: ProjectionStreamInfo<S, Q, R, E>, liveQuery: LiveQuery<S, Q, R, E>)
      requires Valid() && stream.Keyed() && liveQuery.engine == this
      requires liveQuery.partitionId.None? ==> rootPartitionId in partitions
      modifies this, stream, liveQuery
      ensures Valid() && stream.Keyed()
      ensures model != null && (old(model) != null ==> model == old(model))
      ensures old(model) == null ==> fresh(model) && model.state == initialState
      ensures model.state == old(CurrentState())
      ensures liveQuery.result == Some(handler(model.state, liveQuery.query))
      ensures liveQuery.status == Running && liveQuery.raised == old(liveQuery.raised) + [StatusChanged]
      ensures stream.associatedQueries == TryAdd(old(stream.associatedQueries), liveQuery.query, liveQuery)
      ensures liveQueries == TryAdd(old(liveQueries), liveQuery.query, liveQuery)
      ensures partitions == old(partitions) && subscriptions == old(subscriptions)
    {
      var m := GetModel();
      var result := handler(m.state, liveQuery.query);
      liveQuery.OnResult(result);
      stream.associatedQueries := TryAdd(stream.associatedQueries, liveQuery.query, liveQuery);
      liveQueries := TryAdd(liveQueries, liveQuery.query, liveQuery);
    }

    /** `Execute<TQuery, TResult>(query)`. The stream the query was attached to is
        returned as `stream`. A partitioned stream record is built and subscribed
        whenever its id is not stored, and it is never stored (the insertion is
        commented out in the source), so every partitioned call subscribes anew
        and gets a record of its own. The root record is built, subscribed and
        stored on the first unpartitioned call only, and shared by all later ones. */
    method Execute(queryType: ClrType, resultType: ClrType, query: Q)
      returns (r: Result<LiveQuery<S, Q, R, E>>, ghost stream: ProjectionStreamInfo?<S, Q, R, E>)
      requires Valid()
      modifies this, partitions.Values
      ensures Valid()
      ensures r.Failure? <==> PartitionOf(queryType, old(CurrentState()), query).Failure?
      ensures r.Failure? ==> r.error == InvalidOperationException("Sequence contains more than one element")
      ensures r.Failure? ==> model == old(model) && liveQueries == old(liveQueries) &&
                             partitions == old(partitions) && subscriptions == old(subscriptions)
      ensures r.Success? ==>
                var lq := r.value;
                var pid := PartitionOf(queryType, old(CurrentState()), query).value;
                var key := pid.GetOr(rootPartitionId);
                && fresh(lq) && lq.engine == this
                && lq.query == query && lq.partitionId == pid
                && lq.queryType == queryType && lq.resultType == resultType
                && model != null && (old(model) != null ==> model == old(model))
                && (old(model) == null ==> fresh(model))
                && model.state == old(CurrentState())
                && lq.status == Running && lq.result == Some(handler(model.state, query))
                && lq.raised == [StatusChanged]
                && liveQueries == TryAdd(old(liveQueries), query, lq)
                && stream != null && stream.partitionId == key
                && (key in old(partitions) ==>
                      && stream == old(partitions[key])
                      && stream.associatedQueries == TryAdd(old(partitions[key].associatedQueries), query, lq)
                      && partitions == old(partitions) && subscriptions == old(subscriptions))
                && (key !in old(partitions) ==>
                      && fresh(stream) && stream.isRootStream == pid.None?
                      && stream.associatedQueries == map[query := lq]
                      && partitions == (if pid.None? then old(partitions)[key := stream] else old(partitions))
                      && |subscriptions| == |old(subscriptions)| + 1
                      && subscriptions[..|old(subscriptions)|] == old(subscriptions)
                      && subscriptions[|old(subscriptions)|].schema == projectionSchema
                      && subscriptions[|old(subscriptions)|].partition == pid
                      && subscriptions[|old(subscriptions)|].factory.streamInfo == stream
                      && subscriptions[|old(subscriptions)|].factory.liveQuery == lq
                      && subscriptions[|old(subscriptions)|].factory.engine == this)
      ensures forall p :: p in old(partitions) && old(partitions[p]) != stream ==>
                p in partitions && partitions[p] == old(partitions[p]) &&
                partitions[p].associatedQueries == old(partitions[p].associatedQueries)
    {
      var partition := ResolvePartition(queryType, query);
      if partition.Failure? {
        return Failure(partition.error), null;
      }
      var partitionId := partition.value;
      var liveQuery := new LiveQuery(query, partitionId, queryType, resultType, this);
      var streamInfo := StreamFor(liveQuery);
      Attach(streamInfo, liveQuery);
      r, stream := Success(liveQuery), streamInfo;
    }

    /** `SingleOrDefault` over the registered partitioners, then the partitioner's
        answer on the model, which is created first if there is none. Without a
        partitioner the model is not touched. */
    method ResolvePartition(queryType: ClrType, query: Q) returns (r: Result<Option<Guid>>)
      requires Valid()
      modifies this
      ensures Valid()
      ensures r == PartitionOf(queryType, old(CurrentState()), query)
      ensures CurrentState() == old(CurrentState())
      ensures old(model) != null || |partitioners(queryType)| != 1 ==> model == old(model)
      ensures old(model) == null && model != null ==> fresh(model)
      ensures liveQueries == old(liveQueries) && partitions == old(partitions)
      ensures subscriptions == old(subscriptions)
    {
      var partitioner := SingleOrDefault(partitioners(queryType));
      if partitioner.Failure? {
        return Failure(partitioner.error);
      }
      if partitioner.value.None? {
        return Success(None);
      }
      var m := GetModel();
      r := Success(partitioner.value.value(m.state, query));
    }

    /** The stream part of both branches of `Execute`: look the record up, and when
        it is missing build it, subscribe it and (for the root stream only) store it. */
    method StreamFor(liveQuery: LiveQuery<S, Q, R, E>) returns (streamInfo: ProjectionStreamInfo<S, Q, R, E>)
      requires Valid() && liveQuery.engine == this
      modifies this
      ensures Valid()
      ensures model == old(model) && liveQueries == old(liveQueries)
      ensures var key := liveQuery.partitionId.GetOr(rootPartitionId);
              && streamInfo.partitionId == key
              && (key in old(partitions) ==>
                    && streamInfo == old(partitions[key])
                    && partitions == old(partitions) && subscriptions == old(subscriptions))
              && (key !in old(partitions) ==>
                    && fresh(streamInfo) && streamInfo.isRootStream == liveQuery.partitionId.None?
                    && streamInfo.associatedQueries == map[]
                    && partitions == (if liveQuery.partitionId.None? then old(partitions)[key := streamInfo] else old(partitions))
                    && |subscriptions| == |old(subscriptions)| + 1
                    && subscriptions[..|old(subscriptions)|] == old(subscriptions)
                    && subscriptions[|old(subscriptions)|].schema == projectionSchema
                    && subscriptions[|old(subscriptions)|].partition == liveQuery.partitionId
                    && subscriptions[|old(subscriptions)|].factory.streamInfo == streamInfo
                    && subscriptions[|old(subscriptions)|].factory.liveQuery == liveQuery
                    && subscriptions[|old(subscriptions)|].factory.engine == this)
    {
      var partitionId := liveQuery.partitionId;
      if partitionId.Some? {
        if partitionId.value in partitions {
          streamInfo := partitions[partitionId.value];
        } else {
          streamInfo := new ProjectionStreamInfo(partitionId.value, false);
          var handlerFactory := new QueryEngineHandlerFactory(this, streamInfo, liveQuery, projectionSchema);
          RootSubscriptionsAppend(subscriptions, SubscribeCall(projectionSchema, partitionId, handlerFactory));
          subscriptions := subscriptions + [SubscribeCall(projectionSchema, partitionId, handlerFactory)];
        }
      } else {
        if rootPartitionId in partitions {
          streamInfo := partitions[rootPartitionId];
        } else {
          streamInfo := new ProjectionStreamInfo(rootPartitionId, true);
          var handlerFactory := new QueryEngineHandlerFactory(this, streamInfo, liveQuery, projectionSchema);
          RootSubscriptionsAppend(subscriptions, SubscribeCall(projectionSchema, None, handlerFactory));
          subscriptions := subscriptions + [SubscribeCall(projectionSchema, None, handlerFactory)];
          partitions := TryAdd(partitions, rootPartitionId, streamInfo);
        }
      }
    }

    /** `OnQueryDispose(query)`: removes the query from the global index, then from
        the record of its stream. The record is looked up with the indexer, so a
        partitioned query, whose record is never stored, ends in
        `KeyNotFoundException` after its removal from the index. */
    method OnQueryDispose(query: Q) returns (o: Outcome)
      requires Valid()
      modifies this, partitions.Values
      ensures Valid()
      ensures liveQueries == old(liveQueries) - {query}
      ensures partitions == old(partitions) && subscriptions == old(subscriptions) && model == old(model)
      ensures o == DisposalOutcome(old(liveQueries), old(partitions), query)
      ensures o.Fail? ==> o.error == KeyNotFoundException
      ensures query in old(liveQueries) && old(liveQueries[query].partitionId).None? ==> o.Pass?
      ensures (query in old(liveQueries) && old(liveQueries[query].partitionId).Some? &&
               old(liveQueries[query].partitionId).value != rootPartitionId) ==> o.Fail?
      ensures forall p :: p in partitions ==>
                partitions[p].associatedQueries ==
                  if query in old(liveQueries) && old(liveQueries[query].partitionId).GetOr(rootPartitionId) == p
                  then old(partitions[p].associatedQueries) - {query}
                  else old(partitions[p].associatedQueries)
    {
      if query !in liveQueries {
        return Pass;
      }
      var liveQuery := liveQueries[query];
      liveQueries := liveQueries - {query};
      var key := if liveQuery.partitionId.Some? then liveQuery.partitionId.value else rootPartitionId;
      var record := Get(partitions, key);
      if record.Failure? {
        return Fail(record.error);
      }
      record.value.associatedQueries := record.value.associatedQueries - {liveQuery.query};
      o := Pass;
    }

    /** `OnEvents<TQuery, TResult>(streamInfo, projectionType, events)`: projects
        the whole batch onto the model, then refreshes every live query of the
        record whose type arguments are `queryType` and `resultType` with the query
        run on the projected model. The dictionary's enumeration order is not
        specified, so the loop takes the queries in any order. */
    method OnEvents(stream: ProjectionStreamInfo<S, Q, R, E>, queryType: ClrType, resultType: ClrType, events: seq<E>)
      requires stream.Keyed()
      modifies this, model, stream.associatedQueries.Values
      ensures model != null && (old(model) != null ==> model == old(model))
      ensures model.state == Project(applyEvent, old(CurrentState()), events)
      ensures liveQueries == old(liveQueries) && partitions == old(partitions)
      ensures subscriptions == old(subscriptions)
      ensures forall q :: q in stream.associatedQueries ==>
                var lq := stream.associatedQueries[q];
                && lq.status == old(lq.status)
                && (if lq.queryType == queryType && lq.resultType == resultType
                    then lq.result == Some(handler(model.state, q)) && lq.raised == old(lq.raised) + [ResultUpdated]
                    else lq.result == old(lq.result) && lq.raised == old(lq.raised))
    {
      var m := GetModel();
      m.state := Project(applyEvent, m.state, events);
      var pending := stream.associatedQueries.Keys;
      while pending != {}
        invariant pending <= stream.associatedQueries.Keys
        invariant model == m && m.state == Project(applyEvent, old(CurrentState()), events)
        invariant liveQueries == old(liveQueries) && partitions == old(partitions)
        invariant subscriptions == old(subscriptions)
        invariant forall q :: q in stream.associatedQueries ==>
                    var lq := stream.associatedQueries[q];
                    && lq.status == old(lq.status)
                    && (if q !in pending && lq.queryType == queryType && lq.resultType == resultType
                        then lq.result == Some(handler(m.state, q)) && lq.raised == old(lq.raised) + [ResultUpdated]
                        else lq.result == old(lq.result) && lq.raised == old(lq.raised))
        decreases pending
      {
        var q :| q in pending;
        var liveQuery := stream.associatedQueries[q];
        if liveQuery.queryType == queryType && liveQuery.resultType == resultType {
          liveQuery.OnUpdate(handler(m.state, liveQuery.query));
        }
        pending := pending - {q};
      }
    }
  }
}
