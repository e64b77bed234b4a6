/**
 The builder of `GetFlushAllStateParam`: an optional database name and the
 flush-all timestamp. The builder stages the timestamp as a boxed `Long` that
 starts out `null`; the param's constructor unboxes it into a primitive
 `long`, so building before the timestamp was set throws a
 `NullPointerException`. `build()` performs no name validation at all.
 */
module GetFlushAllState {
  import opened Common

  datatype Builder = Builder(databaseName: Nullable<string>, flushAllTs: Nullable<Int64>)

  /** The built request: the timestamp is a primitive, never null. */
  datatype Param = Param(databaseName: Nullable<string>, flushAllTs: Int64)

  /** `newBuilder()`: both fields start out `null`. */
  function NewBuilder(): (b: Builder)
    ensures b.databaseName.Null? && b.flushAllTs.Null?
  {
    Builder(Null, Null)
  }

  /** `withDatabaseName`: any value, `null` included, is accepted; the
      timestamp is kept. */
  function WithDatabaseName(b: Builder, databaseName: Nullable<string>): (r: Builder)
    ensures r.databaseName == databaseName && r.flushAllTs == b.flushAllTs
  {
    b.(databaseName := databaseName)
  }

  /** `withFlushAllTs`: a `null` argument is rejected by `@NonNull`; otherwise
      the timestamp is stored and the database name kept. */
  function WithFlushAllTs(b: Builder, flushAllTs: Nullable<Int64>): (r: Result<Builder>)
    ensures r.Err? <==> flushAllTs.Null?
    ensures r.Err? ==> r.error == NullArg
    ensures r.Ok? ==> r.value.flushAllTs == flushAllTs && r.value.databaseName == b.databaseName
  {
    if flushAllTs.Null? then Err(NullArg) else Ok(b.(flushAllTs := flushAllTs))
  }

  /** `build()` together with the constructor: never a `ParamException`; the
      only failure is the unboxing of a `null` timestamp. The database name is
      copied through whatever it is. */
  function Build(b: Builder): (r: Result<Param>)
    ensures r.Err? <==> b.flushAllTs.Null?
    ensures r.Err? ==> r.error == NullArg
    ensures r.Ok? ==> b.flushAllTs == Present(r.value.flushAllTs) && r.value.databaseName == b.databaseName
  {
    match b.flushAllTs
    case Null => Err(NullArg)
    case Present(ts) => Ok(Param(b.databaseName, ts))
  }

  /** No outcome of `build()` is a `ParamException`. */
  lemma BuildNeverRaisesParamError(b: Builder)
    ensures !(Build(b).Err? && Build(b).error.ParamError?)
  {
  }

  /** Building a fresh builder, with or without a database name, throws from
      unboxing rather than reporting a parameter error. */
  lemma BuildWithoutTimestampFails(databaseName: Nullable<string>)
    ensures Build(NewBuilder()) == Err(NullArg)
    ensures Build(WithDatabaseName(NewBuilder(), databaseName)) == Err(NullArg)
  {
  }

  /** After `withFlushAllTs(t)` the build succeeds with that timestamp and the
      builder's database name, `null` included; a fresh builder's is `null`. */
  lemma SetTimestampThenBuild(b: Builder, ts: Int64)
    ensures WithFlushAllTs(b, Present(ts)).Ok?
    ensures Build(WithFlushAllTs(b, Present(ts)).value) == Ok(Param(b.databaseName, ts))
    ensures Build(WithFlushAllTs(NewBuilder(), Present(ts)).value) == Ok(Param(Null, ts))
  {
  }

  /** One setter call of a fluent chain `newBuilder().with...().with...()`. */
  datatype Call = SetDatabaseName(databaseName: Nullable<string>) | SetFlushAllTs(flushAllTs: Nullable<Int64>)

  function Apply(b: Builder, c: Call): (r: Result<Builder>)
    ensures r.Err? <==> c == SetFlushAllTs(Null)
    ensures r.Err? ==> r.error == NullArg
  {
    match c
    case SetDatabaseName(n) => Ok(WithDatabaseName(b, n))
    case SetFlushAllTs(t) => WithFlushAllTs(b, t)
  }

  /** Runs setter calls in order; the first exception aborts the chain. */
  function Chain(b: Builder, calls: seq<Call>): (r: Result<Builder>)
    ensures r.Err? ==> r.error == NullArg
    decreases |calls|
  {
    if calls == [] then Ok(b)
    else match Apply(b, calls[0])
      case Err(e) => Err(e)
      case Ok(b') => Chain(b', calls[1..])
  }

  /** A chain throws exactly when some `withFlushAllTs` receives `null`; when
      it does not throw, the build that follows succeeds exactly when the
      timestamp was set, by the chain or before it. */
  lemma {:induction false} ChainThenBuild(b: Builder, calls: seq<Call>)
    ensures Chain(b, calls).Err? <==> exists i :: 0 <= i < |calls| && calls[i] == SetFlushAllTs(Null)
    ensures Chain(b, calls).Err? ==> Chain(b, calls).error == NullArg
    ensures Chain(b, calls).Ok? ==>
              (Build(Chain(b, calls).value).Ok? <==>
               b.flushAllTs.Present? || exists i :: 0 <= i < |calls| && calls[i].SetFlushAllTs?)
    decreases |calls|
  {
    if calls != [] {
      var tail := calls[1..];
      if calls[0] != SetFlushAllTs(Null) {
        var b' := Apply(b, calls[0]).value;
        ChainThenBuild(b', tail);
        forall i | 1 <= i < |calls| ensures calls[i] == tail[i - 1] { }
        forall j | 0 <= j < |tail| ensures tail[j] == calls[j + 1] { }
      }
    }
  }
}
