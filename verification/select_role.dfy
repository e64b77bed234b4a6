/**
 The builder of `SelectRoleParam`: a required role name and an optional
 flag asking the server to include the role's users in the reply.
 */
module SelectRole {
  import opened Common

  datatype Builder = Builder(roleName: Nullable<string>, includeUserInfo: bool)

  /** The built request: the role name is known to be present and non-empty. */
  datatype Param = Param(roleName: string, includeUserInfo: bool)

  /** `newBuilder()`: no role name, and user info not requested. */
  function NewBuilder(): (b: Builder)
    ensures b.roleName.Null? && !b.includeUserInfo
  {
    Builder(Null, false)
  }

  /** `withRoleName`: a `null` argument is rejected by `@NonNull`; the empty
      string is stored and only refused later by `build()`. The flag is kept. */
  function WithRoleName(b: Builder, roleName: Nullable<string>): (r: Result<Builder>)
    ensures r.Err? <==> roleName.Null?
    ensures r.Err? ==> r.error == NullArg
    ensures r.Ok? ==> r.value.roleName == roleName && r.value.includeUserInfo == b.includeUserInfo
  {
    if roleName.Null? then Err(NullArg) else Ok(b.(roleName := roleName))
  }

  /** `withIncludeUserInfo` takes a primitive `boolean`, so it cannot fail; it
      sets the flag and keeps the role name. */
  function WithIncludeUserInfo(b: Builder, includeUserInfo: bool): (r: Builder)
    ensures r.includeUserInfo == includeUserInfo && r.roleName == b.roleName
  {
    b.(includeUserInfo := includeUserInfo)
  }

  /** `build()`: fails naming "RoleName" when the role name is null or empty,
      and otherwise copies both fields into the param. */
  function Build(b: Builder): (r: Result<Param>)
    ensures r.Err? <==> NullOrEmpty(b.roleName)
    ensures r.Err? ==> r.error == ParamError(RoleNameLabel)
    ensures r.Ok? ==> b.roleName == Present(r.value.roleName) && r.value.roleName != ""
    ensures r.Ok? ==> r.value.includeUserInfo == b.includeUserInfo
  {
    match CheckNullEmptyString(b.roleName, RoleNameLabel)
    case Fail(e) => Err(e)
    case Pass => Ok(Param(b.roleName.value, b.includeUserInfo))
  }

  /** One setter call of a fluent chain `newBuilder().with...().with...()`. */
  datatype Call = SetRoleName(roleName: Nullable<string>) | SetIncludeUserInfo(includeUserInfo: bool)

  function Apply(b: Builder, c: Call): (r: Result<Builder>)
    ensures r.Err? <==> c == SetRoleName(Null)
    ensures r.Err? ==> r.error == NullArg
  {
    match c
    case SetRoleName(n) => WithRoleName(b, n)
    case SetIncludeUserInfo(f) => Ok(WithIncludeUserInfo(b, f))
  }

  /** Runs setter calls in order; the first exception aborts the chain. */
  function Chain(b: Builder, calls: seq<Call>): (r: Result<Builder>)
    ensures r.Err? ==> r.error == NullArg
    decreases |calls|
  {
    if calls == [] then Ok(b)
    else match Apply(b, calls[0])
      case Err(e) => Err(e)
      case Ok(b') => Chain(b', calls[1..])
  }

  /** A chain throws exactly when some `withRoleName` receives `null`. */
  lemma {:induction false} ChainFailsOnNullRoleName(b: Builder, calls: seq<Call>)
    ensures Chain(b, calls).Err? <==> exists i :: 0 <= i < |calls| && calls[i] == SetRoleName(Null)
    ensures Chain(b, calls).Err? ==> Chain(b, calls).error == NullArg
    decreases |calls|
  {
    if calls != [] {
      var tail := calls[1..];
      if calls[0] != SetRoleName(Null) {
        ChainFailsOnNullRoleName(Apply(b, calls[0]).value, tail);
        if exists i :: 0 <= i < |calls| && calls[i] == SetRoleName(Null) {
          var i :| 0 <= i < |calls| && calls[i] == SetRoleName(Null);
          assert tail[i - 1] == calls[i];
        }
        if exists j :: 0 <= j < |tail| && tail[j] == SetRoleName(Null) {
          var j :| 0 <= j < |tail| && tail[j] == SetRoleName(Null);
          assert calls[j + 1] == tail[j];
        }
      }
    }
  }

  /** Each field keeps the value of the last setter that wrote it; a field no
      call wrote keeps the builder's value. */
  lemma {:induction false} ChainKeepsLastWrites(b: Builder, calls: seq<Call>)
    requires Chain(b, calls).Ok?
    ensures forall j :: 0 <= j < |calls| && calls[j].SetRoleName? && LastRoleNameCall(calls, j) ==>
              Chain(b, calls).value.roleName == calls[j].roleName
    ensures (forall j :: 0 <= j < |calls| ==> !calls[j].SetRoleName?) ==>
              Chain(b, calls).value.roleName == b.roleName
    ensures forall j :: 0 <= j < |calls| && calls[j].SetIncludeUserInfo? && LastFlagCall(calls, j) ==>
              Chain(b, calls).value.includeUserInfo == calls[j].includeUserInfo
    ensures (forall j :: 0 <= j < |calls| ==> !calls[j].SetIncludeUserInfo?) ==>
              Chain(b, calls).value.includeUserInfo == b.includeUserInfo
    decreases |calls|
  {
    if calls != [] {
      var b' := Apply(b, calls[0]).value;
      var tail := calls[1..];
      ChainKeepsLastWrites(b', tail);
      forall j | 0 <= j < |calls| && calls[j].SetRoleName? && LastRoleNameCall(calls, j)
        ensures Chain(b, calls).value.roleName == calls[j].roleName
      {
        if j > 0 {
          assert tail[j - 1] == calls[j];
          assert LastRoleNameCall(tail, j - 1) by {
            forall k | j - 1 < k < |tail| ensures !tail[k].SetRoleName? {
              assert tail[k] == calls[k + 1];
            }
          }
        } else {
          forall k | 0 <= k < |tail| ensures !tail[k].SetRoleName? {
            assert tail[k] == calls[k + 1];
          }
        }
      }
      if forall j :: 0 <= j < |calls| ==> !calls[j].SetRoleName? {
        forall k | 0 <= k < |tail| ensures !tail[k].SetRoleName? {
          assert tail[k] == calls[k + 1];
        }
      }
      forall j | 0 <= j < |calls| && calls[j].SetIncludeUserInfo? && LastFlagCall(calls, j)
        ensures Chain(b, calls).value.includeUserInfo == calls[j].includeUserInfo
      {
        if j > 0 {
          assert tail[j - 1] == calls[j];
          assert LastFlagCall(tail, j - 1) by {
            forall k | j - 1 < k < |tail| ensures !tail[k].SetIncludeUserInfo? {
              assert tail[k] == calls[k + 1];
            }
          }
        } else {
          forall k | 0 <= k < |tail| ensures !tail[k].SetIncludeUserInfo? {
            assert tail[k] == calls[k + 1];
          }
        }
      }
      if forall j :: 0 <= j < |calls| ==> !calls[j].SetIncludeUserInfo? {
        forall k | 0 <= k < |tail| ensures !tail[k].SetIncludeUserInfo? {
          assert tail[k] == calls[k + 1];
        }
      }
    }
  }

  /** calls[j] is the last `withRoleName` of the chain. */
  predicate LastRoleNameCall(calls: seq<Call>, j: int)
    requires 0 <= j < |calls|
  {
    forall k :: j < k < |calls| ==> !calls[k].SetRoleName?
  }

  /** calls[j] is the last `withIncludeUserInfo` of the chain. */
  predicate LastFlagCall(calls: seq<Call>, j: int)
    requires 0 <= j < |calls|
  {
    forall k :: j < k < |calls| ==> !calls[k].SetIncludeUserInfo?
  }

  /** `newBuilder().withRoleName(name).withIncludeUserInfo(flag).build()`:
      succeeds exactly for a non-empty name, carrying both values. */
  lemma NameAndFlagThenBuild(name: string, flag: bool)
    ensures Chain(NewBuilder(), [SetRoleName(Present(name)), SetIncludeUserInfo(flag)]).Ok?
    ensures Build(Chain(NewBuilder(), [SetRoleName(Present(name)), SetIncludeUserInfo(flag)]).value)
            == if name == "" then Err(ParamError(RoleNameLabel)) else Ok(Param(name, flag))
  {
    var calls := [SetRoleName(Present(name)), SetIncludeUserInfo(flag)];
    var named := WithRoleName(NewBuilder(), Present(name)).value;
    var flagged := WithIncludeUserInfo(named, flag);
    assert calls[1..] == [SetIncludeUserInfo(flag)];
    assert calls[1..][1..] == [];
    assert Chain(NewBuilder(), calls) == Chain(named, calls[1..]);
    assert Chain(named, calls[1..]) == Chain(flagged, []);
  }

  /** Without `withIncludeUserInfo`, the param built from a fresh builder
      does not ask for user info. */
  lemma FlagDefaultsToFalse(name: string)
    requires name != ""
    ensures WithRoleName(NewBuilder(), Present(name)).Ok?
    ensures Build(WithRoleName(NewBuilder(), Present(name)).value) == Ok(Param(name, false))
  {
  }

  /** A fresh builder cannot be built, whatever the flag says. */
  lemma FlagAloneFails(flag: bool)
    ensures Build(WithIncludeUserInfo(NewBuilder(), flag)) == Err(ParamError(RoleNameLabel))
  {
  }

  /** The two setters write different fields, so their order does not matter. */
  lemma SettersCommute(b: Builder, name: Nullable<string>, flag: bool)
    ensures WithRoleName(WithIncludeUserInfo(b, flag), name)
            == (var r := WithRoleName(b, name); if r.Ok? then Ok(WithIncludeUserInfo(r.value, flag)) else r)
  {
  }
}
