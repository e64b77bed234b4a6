/**
 The builder of `GetFlushStateParam`: an optional database name, the required
 collection name, a flush timestamp defaulting to 0, and a deprecated list of
 segment ids.

 The builder owns one `ArrayList` of segment ids, created with the builder and
 only ever appended to. `build()` hands that same list object to the param
 instead of copying it, so the param and the builder share it. The list is
 therefore a heap object here, `SegmentIdList`, and sharing is reference
 equality; every other field is a value.
 */
module GetFlushState {
  import opened Common

  /** A `java.util.List<Long>`: its elements may themselves be `null`, since
      `withSegmentIDs` adds the caller's elements without looking at them. */
  type SegmentId = Nullable<Int64>

  class SegmentIdList {
    var items: seq<SegmentId>

    constructor ()
      ensures items == []
    {
      items := [];
    }
  }

  datatype Builder = Builder(
    databaseName: Nullable<string>,
    collectionName: Nullable<string>,
    segmentIDs: SegmentIdList,
    flushTs: Int64)

  /** The built request: the collection name is known to be present and
      non-empty; `segmentIDs` is the builder's own list object. */
  datatype Param = Param(
    databaseName: Nullable<string>,
    collectionName: string,
    segmentIDs: SegmentIdList,
    flushTs: Int64)

  /** `newBuilder()`: no names, an empty list of its own, and timestamp 0. */
  method NewBuilder() returns (b: Builder)
    ensures b.databaseName.Null? && b.collectionName.Null? && b.flushTs == 0
    ensures fresh(b.segmentIDs) && b.segmentIDs.items == []
  {
    var ids := new SegmentIdList();
    b := Builder(Null, Null, ids, 0);
  }

  /** `withDatabaseName`: any value, `null` included, is accepted; nothing
      else changes. */
  function WithDatabaseName(b: Builder, databaseName: Nullable<string>): (r: Builder)
    ensures r.databaseName == databaseName
    ensures r.collectionName == b.collectionName && r.segmentIDs == b.segmentIDs && r.flushTs == b.flushTs
  {
    b.(databaseName := databaseName)
  }

  /** `withCollectionName`: a `null` argument is rejected by `@NonNull`; the
      empty string is stored and only refused later by `build()`. */
  function WithCollectionName(b: Builder, collectionName: Nullable<string>): (r: Result<Builder>)
    ensures r.Err? <==> collectionName.Null?
    ensures r.Err? ==> r.error == NullArg
    ensures r.Ok? ==> r.value.collectionName == collectionName
    ensures r.Ok? ==> r.value.databaseName == b.databaseName && r.value.segmentIDs == b.segmentIDs && r.value.flushTs == b.flushTs
  {
    if collectionName.Null? then Err(NullArg) else Ok(b.(collectionName := collectionName))
  }

  /** `withFlushTs`: a `null` argument is rejected by `@NonNull`; otherwise
      the timestamp is replaced and nothing else changes. */
  function WithFlushTs(b: Builder, flushTs: Nullable<Int64>): (r: Result<Builder>)
    ensures r.Err? <==> flushTs.Null?
    ensures r.Err? ==> r.error == NullArg
    ensures r.Ok? ==> Present(r.value.flushTs) == flushTs
    ensures r.Ok? ==> r.value.databaseName == b.databaseName && r.value.collectionName == b.collectionName && r.value.segmentIDs == b.segmentIDs
  {
    match flushTs
    case Null => Err(NullArg)
    case Present(ts) => Ok(b.(flushTs := ts))
  }

  /** `addSegmentID`: a `null` id is rejected by `@NonNull` before the list is
      touched; otherwise the id is appended at the end of the builder's list. */
  method AddSegmentID(b: Builder, segmentID: Nullable<Int64>) returns (r: Result<Builder>)
    modifies b.segmentIDs
    ensures segmentID.Null? ==> r == Err(NullArg) && b.segmentIDs.items == old(b.segmentIDs.items)
    ensures segmentID.Present? ==> r == Ok(b) && b.segmentIDs.items == old(b.segmentIDs.items) + [segmentID]
  {
    if segmentID.Null? {
      return Err(NullArg);
    }
    b.segmentIDs.items := b.segmentIDs.items + [segmentID];
    return Ok(b);
  }

  /** `withSegmentIDs`: a `null` list is rejected by `@NonNull`; otherwise its
      elements are appended in order, with no de-duplication. */
  method WithSegmentIDs(b: Builder, segmentIDs: Nullable<seq<SegmentId>>) returns (r: Result<Builder>)
    modifies b.segmentIDs
    ensures segmentIDs.Null? ==> r == Err(NullArg) && b.segmentIDs.items == old(b.segmentIDs.items)
    ensures segmentIDs.Present? ==> r == Ok(b) && b.segmentIDs.items == old(b.segmentIDs.items) + segmentIDs.value
  {
    if segmentIDs.Null? {
      return Err(NullArg);
    }
    b.segmentIDs.items := b.segmentIDs.items + segmentIDs.value;
    return Ok(b);
  }

  /** `build()` together with the constructor: fails naming "Collection name"
      when the collection name is null or empty; otherwise copies the scalar
      fields and passes on the builder's list object itself. */
  function Build(b: Builder): (r: Result<Param>)
    ensures r.Err? <==> NullOrEmpty(b.collectionName)
    ensures r.Err? ==> r.error == ParamError(CollectionNameLabel)
    ensures r.Ok? ==> b.collectionName == Present(r.value.collectionName) && r.value.collectionName != ""
    ensures r.Ok? ==> r.value.databaseName == b.databaseName && r.value.flushTs == b.flushTs
    ensures r.Ok? ==> r.value.segmentIDs == b.segmentIDs
  {
    match CheckNullEmptyString(b.collectionName, CollectionNameLabel)
    case Fail(e) => Err(e)
    case Pass => Ok(Param(b.databaseName, b.collectionName.value, b.segmentIDs, b.flushTs))
  }

  /** The ids as the list holds them after `addSegmentID` of each. */
  function Boxed(ids: seq<Int64>): (r: seq<SegmentId>)
    ensures |r| == |ids|
    ensures forall i :: 0 <= i < |ids| ==> r[i] == Present(ids[i])
  {
    seq(|ids|, i requires 0 <= i < |ids| => Present(ids[i]))
  }

  /** `addSegmentID` once per id, in order, yields the same list as one
      `withSegmentIDs` of all of them: the ids in the given order, repeats kept. */
  method AddEachMatchesAddAll(ids: seq<Int64>) returns (oneByOne: seq<SegmentId>, allAtOnce: seq<SegmentId>)
    ensures oneByOne == allAtOnce
    ensures oneByOne == Boxed(ids)
  {
    var single := NewBuilder();
    var i := 0;
    while i < |ids|
      invariant 0 <= i <= |ids|
      invariant single.segmentIDs.items == Boxed(ids[..i])
    {
      var r := AddSegmentID(single, Present(ids[i]));
      assert Boxed(ids[..i + 1]) == Boxed(ids[..i]) + [Present(ids[i])];
      i := i + 1;
    }
    assert ids[..i] == ids;
    var many := NewBuilder();
    var r := WithSegmentIDs(many, Present(Boxed(ids)));
    oneByOne := single.segmentIDs.items;
    allAtOnce := many.segmentIDs.items;
  }

  /** An id appended to the builder after a successful build shows up in the
      param already built, because both hold the same list. */
  method AddAfterBuild(b: Builder, id: Int64) returns (p: Result<Param>)
    requires !NullOrEmpty(b.collectionName)
    modifies b.segmentIDs
    ensures p.Ok? && p.value.segmentIDs.items == old(b.segmentIDs.items) + [Present(id)]
  {
    p := Build(b);
    var r := AddSegmentID(b, Present(id));
  }

  /** `newBuilder().withCollectionName(name).withFlushTs(ts).build()`: succeeds
      exactly for a non-empty name; the param then has no database name, the
      given name and timestamp, and an empty segment list. An id added to the
      builder afterwards is seen through the param. */
  method NameAndTimestampThenBuild(name: string, ts: Int64, laterId: Int64)
    returns (p: Result<Param>, seenBefore: seq<SegmentId>, seenAfter: seq<SegmentId>)
    ensures p.Err? <==> name == ""
    ensures p.Err? ==> p.error == ParamError(CollectionNameLabel)
    ensures p.Ok? ==> p.value.databaseName.Null? && p.value.collectionName == name && p.value.flushTs == ts
    ensures p.Ok? ==> seenBefore == [] && seenAfter == [Present(laterId)]
  {
    var b := NewBuilder();
    b := WithCollectionName(b, Present(name)).value;
    b := WithFlushTs(b, Present(ts)).value;
    p := Build(b);
    if p.Err? {
      return p, [], [];
    }
    seenBefore := p.value.segmentIDs.items;
    var r := AddSegmentID(b, Present(laterId));
    seenAfter := p.value.segmentIDs.items;
  }

  /** A fresh builder cannot be built: the collection name was never set. */
  method BuildFreshBuilder() returns (p: Result<Param>)
    ensures p == Err(ParamError(CollectionNameLabel))
  {
    var b := NewBuilder();
    p := Build(b);
  }

  /** A second `withCollectionName` overrides the first. */
  lemma LastCollectionNameWins(b: Builder, first: string, second: Nullable<string>)
    ensures WithCollectionName(b, Present(first)).Ok?
    ensures WithCollectionName(WithCollectionName(b, Present(first)).value, second) == WithCollectionName(b, second)
  {
  }

  /** A second `withFlushTs` overrides the first. */
  lemma LastFlushTsWins(b: Builder, first: Int64, second: Nullable<Int64>)
    ensures WithFlushTs(b, Present(first)).Ok?
    ensures WithFlushTs(WithFlushTs(b, Present(first)).value, second) == WithFlushTs(b, second)
  {
  }

  /** The value setters write different fields, so they commute. */
  lemma ValueSettersCommute(b: Builder, databaseName: Nullable<string>, collectionName: string, ts: Int64)
    ensures WithCollectionName(b, Present(collectionName)).Ok? && WithFlushTs(b, Present(ts)).Ok?
    ensures WithFlushTs(WithCollectionName(b, Present(collectionName)).value, Present(ts))
            == WithCollectionName(WithFlushTs(b, Present(ts)).value, Present(collectionName))
    ensures WithDatabaseName(WithCollectionName(b, Present(collectionName)).value, databaseName)
            == WithCollectionName(WithDatabaseName(b, databaseName), Present(collectionName)).value
    ensures WithDatabaseName(WithFlushTs(b, Present(ts)).value, databaseName)
            == WithFlushTs(WithDatabaseName(b, databaseName), Present(ts)).value
  {
  }
}
