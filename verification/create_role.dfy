/**
 The builder of `CreateRoleParam`: one required field, the role name.
 */
module CreateRole {
  import opened Common

  datatype Builder = Builder(roleName: Nullable<string>)

  /** The built request: the role name is known to be present and non-empty. */
  datatype Param = Param(roleName: string)

  /** `newBuilder()`: the role name starts out `null`. */
  function NewBuilder(): (b: Builder)
    ensures b.roleName.Null?
  {
    Builder(Null)
  }

  /** `withRoleName`: a `null` argument is rejected by `@NonNull`; anything
      else, including the empty string, is stored as is. */
  function WithRoleName(b: Builder, roleName: Nullable<string>): (r: Result<Builder>)
    ensures r.Err? <==> roleName.Null?
    ensures r.Err? ==> r.error == NullArg
    ensures r.Ok? ==> r.value.roleName == roleName
  {
    if roleName.Null? then Err(NullArg) else Ok(b.(roleName := roleName))
  }

  /** `build()`: fails naming "RoleName" when the role name is null or empty,
      and otherwise carries it into the param. */
  function Build(b: Builder): (r: Result<Param>)
    ensures r.Err? <==> NullOrEmpty(b.roleName)
    ensures r.Err? ==> r.error == ParamError(RoleNameLabel)
    ensures r.Ok? ==> b.roleName == Present(r.value.roleName) && r.value.roleName != ""
  {
    match CheckNullEmptyString(b.roleName, RoleNameLabel)
    case Fail(e) => Err(e)
    case Pass => Ok(Param(b.roleName.value))
  }

  /** A fresh builder cannot be built: the role name was never set. */
  lemma FreshBuilderFails()
    ensures Build(NewBuilder()) == Err(ParamError(RoleNameLabel))
  {
  }

  /** Setting a role name and building: the empty name passes the setter but
      fails at build; any other name ends up in the param. */
  lemma SetThenBuild(b: Builder, name: string)
    ensures WithRoleName(b, Present(name)).Ok?
    ensures name == "" ==> Build(WithRoleName(b, Present(name)).value) == Err(ParamError(RoleNameLabel))
    ensures name != "" ==> Build(WithRoleName(b, Present(name)).value) == Ok(Param(name))
  {
  }

  /** A second `withRoleName` overrides the first. */
  lemma LastRoleNameWins(b: Builder, first: string, second: Nullable<string>)
    ensures WithRoleName(b, Present(first)).Ok?
    ensures WithRoleName(WithRoleName(b, Present(first)).value, second) == WithRoleName(b, second)
  {
  }

  /** A failed build does not spoil the builder: setting a non-empty name on
      the very same builder and building again succeeds. */
  lemma RebuildAfterFailure(b: Builder, name: string)
    requires Build(b).Err?
    requires name != ""
    ensures WithRoleName(b, Present(name)).Ok?
    ensures Build(WithRoleName(b, Present(name)).value) == Ok(Param(name))
  {
  }
}
