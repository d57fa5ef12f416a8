/** Call sequences on one `QueryEngine`, each with what the engine promises about
    it: the lazily created model, the single root subscription, the new
    subscription of every partitioned query, and disposal. */
module QueryScenarios {
  import opened Wrappers
  import opened Clr
  import opened QueryProcessing

  /** Two reads of the model give the same instance. */
  method ModelIsCreatedOnce<S, Q(==), R, E>(engine: QueryEngine<S, Q, R, E>)
    returns (first: ReadModel<S>, second: ReadModel<S>)
    modifies engine
    ensures first == second && engine.model == first
    ensures old(engine.model) == null ==> fresh(first) && first.state == engine.initialState
  {
    first := engine.GetModel();
    second := engine.GetModel();
  }

  /** Unpartitioned queries share one root record, and the root stream is
      subscribed to at most once however many of them run. */
  method RootQueriesShareOneSubscription<S, Q(==), R, E>(engine: QueryEngine<S, Q, R, E>,
                                                         queryType: ClrType, resultType: ClrType, q1: Q, q2: Q)
    returns (lq1: LiveQuery<S, Q, R, E>, lq2: LiveQuery<S, Q, R, E>)
    requires engine.Valid() && engine.partitioners(queryType) == []
    modifies engine, engine.partitions.Values
    ensures engine.Valid()
    ensures lq1.partitionId.None? && lq2.partitionId.None?
    ensures lq1.status == Running && lq2.status == Running
    ensures engine.rootPartitionId in engine.partitions
    ensures q1 in engine.partitions[engine.rootPartitionId].associatedQueries
    ensures q2 in engine.partitions[engine.rootPartitionId].associatedQueries
    ensures RootSubscriptions(engine.subscriptions) == 1
    ensures |engine.subscriptions| <= |old(engine.subscriptions)| + 1
    ensures engine.rootPartitionId in old(engine.partitions) ==> engine.subscriptions == old(engine.subscriptions)
  {
    var r1, r2;
    ghost var s1, s2;
    r1, s1 := engine.Execute(queryType, resultType, q1);
    lq1 := r1.value;
    r2, s2 := engine.Execute(queryType, resultType, q2);
    lq2 := r2.value;
    assert s1 == s2;
  }

  /** As written, every partitioned `Execute` subscribes again, even for the same
      query on the same partition, and attaches the query to a record of its own;
      the global index keeps the first live query for an equal query value. */
  method PartitionedQueriesSubscribeEveryTime<S, Q(==), R, E>(engine: QueryEngine<S, Q, R, E>,
                                                              queryType: ClrType, resultType: ClrType, q: Q)
    returns (lq1: LiveQuery<S, Q, R, E>, lq2: LiveQuery<S, Q, R, E>)
    requires engine.Valid() && |engine.partitioners(queryType)| == 1
    requires engine.partitioners(queryType)[0](engine.CurrentState(), q).Some?
    requires engine.partitioners(queryType)[0](engine.CurrentState(), q).value != engine.rootPartitionId
    requires q !in engine.liveQueries
    modifies engine, engine.partitions.Values
    ensures engine.Valid()
    ensures lq1 != lq2 && lq1.partitionId == lq2.partitionId
    ensures lq1.partitionId == old(engine.partitioners(queryType)[0](engine.CurrentState(), q))
    ensures |engine.subscriptions| == |old(engine.subscriptions)| + 2
    ensures engine.partitions == old(engine.partitions)
    ensures engine.liveQueries == old(engine.liveQueries)[q := lq1]
  {
    var r1, r2;
    ghost var s1, s2;
    r1, s1 := engine.Execute(queryType, resultType, q);
    lq1 := r1.value;
    r2, s2 := engine.Execute(queryType, resultType, q);
    lq2 := r2.value;
  }

  /** Disposing a root query removes it from both indices; disposing it again
      finds nothing to remove, yet raises `StatusChanged` once more. */
  method RootQueryDisposedTwice<S, Q(==), R, E>(engine: QueryEngine<S, Q, R, E>,
                                                queryType: ClrType, resultType: ClrType, q: Q)
    returns (lq: LiveQuery<S, Q, R, E>, first: Outcome, second: Outcome)
    requires engine.Valid() && engine.partitioners(queryType) == [] && q !in engine.liveQueries
    modifies engine, engine.partitions.Values
    ensures engine.Valid()
    ensures first == Pass && second == Pass
    ensures lq.status == Disposed && lq.raised == [StatusChanged, StatusChanged, StatusChanged]
    ensures q !in engine.liveQueries
    ensures engine.rootPartitionId in engine.partitions
    ensures q !in engine.partitions[engine.rootPartitionId].associatedQueries
  {
    var r;
    ghost var s;
    r, s := engine.Execute(queryType, resultType, q);
    lq := r.value;
    first := lq.Dispose();
    second := lq.Dispose();
  }

  /** Disposing a partitioned query throws `KeyNotFoundException`, because its
      record was never stored, after the query has left the global index; the
      live query stays `Running`. */
  method PartitionedQueryDisposeThrows<S, Q(==), R, E>(engine: QueryEngine<S, Q, R, E>,
                                                       queryType: ClrType, resultType: ClrType, q: Q)
    returns (lq: LiveQuery<S, Q, R, E>, outcome: Outcome)
    requires engine.Valid() && |engine.partitioners(queryType)| == 1
    requires engine.partitioners(queryType)[0](engine.CurrentState(), q).Some?
    requires engine.partitioners(queryType)[0](engine.CurrentState(), q).value != engine.rootPartitionId
    requires q !in engine.liveQueries
    modifies engine, engine.partitions.Values
    ensures engine.Valid()
    ensures outcome == Fail(KeyNotFoundException)
    ensures lq.status == Running && lq.raised == [StatusChanged]
    ensures q !in engine.liveQueries
  {
    var r;
    ghost var s;
    r, s := engine.Execute(queryType, resultType, q);
    lq := r.value;
    outcome := lq.Dispose();
  }

  /** The handler factory handed to the subscription of a new root stream: a
      handler it creates projects a delivered event onto the engine's model and
      then sets the live query's result to the query run on the projected model. */
  method SubscribedHandlerRunsQuery<S, Q(==), R, E>(engine: QueryEngine<S, Q, R, E>,
                                                    queryType: ClrType, resultType: ClrType, q: Q, event: E)
    returns (lq: LiveQuery<S, Q, R, E>, h: QueryEventHandler<S, Q, R, E>)
    requires engine.Valid() && engine.partitioners(queryType) == []
    requires engine.rootPartitionId !in engine.partitions
    modifies engine, engine.partitions.Values, engine.model
    ensures engine.model != null && h.model == engine.model && h.liveQuery == lq
    ensures engine.model.state == engine.applyEvent(old(engine.CurrentState()), event)
    ensures lq.result == Some(engine.handler(engine.model.state, q))
    ensures lq.status == Running && lq.raised == [StatusChanged, StatusChanged]
  {
    var r;
    ghost var s;
    r, s := engine.Execute(queryType, resultType, q);
    lq := r.value;
    var factory := engine.subscriptions[|engine.subscriptions| - 1].factory;
    h := factory.CreateHandler();
    h.Execute(event);
  }

  /** A partitioned `Execute` touches only its own new record: a root query run
      before it stays in the root record. */
  method RootQuerySurvivesPartitionedCall<S, Q(==), R, E>(engine: QueryEngine<S, Q, R, E>,
                                                          rootType: ClrType, partitionedType: ClrType,
                                                          resultType: ClrType, q1: Q, q2: Q)
    returns (lq1: LiveQuery<S, Q, R, E>, lq2: LiveQuery<S, Q, R, E>)
    requires engine.Valid() && engine.partitioners(rootType) == []
    requires |engine.partitioners(partitionedType)| == 1
    modifies engine, engine.partitions.Values
    ensures engine.Valid()
    ensures engine.rootPartitionId in engine.partitions
    ensures q1 in engine.partitions[engine.rootPartitionId].associatedQueries
  {
    var r1, r2;
    ghost var s1, s2;
    r1, s1 := engine.Execute(rootType, resultType, q1);
    lq1 := r1.value;
    r2, s2 := engine.Execute(partitionedType, resultType, q2);
    lq2 := r2.value;
  }

  /** Disposing a live query leaves the engine's model in place. */
  method DisposeKeepsModel<S, Q(==), R, E>(engine: QueryEngine<S, Q, R, E>,
                                           queryType: ClrType, resultType: ClrType, q: Q)
    returns (lq: LiveQuery<S, Q, R, E>, m: ReadModel<S>, outcome: Outcome)
    requires engine.Valid() && |engine.partitioners(queryType)| <= 1
    modifies engine, engine.partitions.Values
    ensures engine.model == m
  {
    var r;
    ghost var s;
    r, s := engine.Execute(queryType, resultType, q);
    lq := r.value;
    m := engine.model;
    outcome := lq.Dispose();
  }

  /** A partitioned live query disposed twice: the first call throws after taking
      the query out of the index; the second finds nothing to remove, succeeds and
      marks the query `Disposed`. */
  method PartitionedQueryDisposedTwice<S, Q(==), R, E>(engine: QueryEngine<S, Q, R, E>,
                                                       queryType: ClrType, resultType: ClrType, q: Q)
    returns (lq: LiveQuery<S, Q, R, E>, first: Outcome, second: Outcome)
    requires engine.Valid() && |engine.partitioners(queryType)| == 1
    requires engine.partitioners(queryType)[0](engine.CurrentState(), q).Some?
    requires engine.partitioners(queryType)[0](engine.CurrentState(), q).value != engine.rootPartitionId
    requires q !in engine.liveQueries
    modifies engine, engine.partitions.Values
    ensures engine.Valid()
    ensures first == Fail(KeyNotFoundException) && second == Pass
    ensures lq.status == Disposed && lq.raised == [StatusChanged, StatusChanged]
    ensures q !in engine.liveQueries
  {
    var r;
    ghost var s;
    r, s := engine.Execute(queryType, resultType, q);
    lq := r.value;
    first := lq.Dispose();
    second := lq.Dispose();
  }
}
