/**
 The builder of `ManualCompactParam`: one required field, the collection name.
 */
module ManualCompact {
  import opened Common

  datatype Builder = Builder(collectionName: Nullable<string>)

  /** The built request: the collection name is known to be present and non-empty. */
  datatype Param = Param(collectionName: string)

  /** `newBuilder()`: the collection name starts out `null`. */
  function NewBuilder(): (b: Builder)
    ensures b.collectionName.Null?
  {
    Builder(Null)
  }

  /** `withCollectionName`: a `null` argument is rejected by `@NonNull`; the
      empty string is stored and only refused later by `build()`. */
  function WithCollectionName(b: Builder, collectionName: Nullable<string>): (r: Result<Builder>)
    ensures r.Err? <==> collectionName.Null?
    ensures r.Err? ==> r.error == NullArg
    ensures r.Ok? ==> r.value.collectionName == collectionName
  {
    if collectionName.Null? then Err(NullArg) else Ok(b.(collectionName := collectionName))
  }

  /** `build()`: fails naming "Collection name" when the collection name is
      null or empty, and otherwise carries it into the param. */
  function Build(b: Builder): (r: Result<Param>)
    ensures r.Err? <==> NullOrEmpty(b.collectionName)
    ensures r.Err? ==> r.error == ParamError(CollectionNameLabel)
    ensures r.Ok? ==> b.collectionName == Present(r.value.collectionName) && r.value.collectionName != ""
  {
    match CheckNullEmptyString(b.collectionName, CollectionNameLabel)
    case Fail(e) => Err(e)
    case Pass => Ok(Param(b.collectionName.value))
  }

  /** A fresh builder cannot be built: the collection name was never set. */
  lemma FreshBuilderFails()
    ensures Build(NewBuilder()) == Err(ParamError(CollectionNameLabel))
  {
  }

  /** Setting a collection name and building: the empty name passes the setter
      but fails at build; any other name ends up in the param. */
  lemma SetThenBuild(b: Builder, name: string)
    ensures WithCollectionName(b, Present(name)).Ok?
    ensures name == "" ==> Build(WithCollectionName(b, Present(name)).value) == Err(ParamError(CollectionNameLabel))
    ensures name != "" ==> Build(WithCollectionName(b, Present(name)).value) == Ok(Param(name))
  {
  }

  /** A second `withCollectionName` overrides the first. */
  lemma LastCollectionNameWins(b: Builder, first: string, second: Nullable<string>)
    ensures WithCollectionName(b, Present(first)).Ok?
    ensures WithCollectionName(WithCollectionName(b, Present(first)).value, second) == WithCollectionName(b, second)
  {
  }
}
