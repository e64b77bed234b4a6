/**
 Values shared by every request-parameter builder: Java's nullable references,
 the 64-bit `Long`, the two ways a builder call can fail, and the
 null-or-empty check that `build()` applies to required string fields.
 */
module Common {

  /** A Java reference that may be `null`. */
  datatype Nullable<+T> = Null | Present(value: T)

  /** Java's `long` / `Long` value range. No arithmetic is done on these values. */
  newtype Int64 = x: int | -0x8000_0000_0000_0000 <= x < 0x8000_0000_0000_0000

  /** The two failures a builder can raise.
      NullArg: a `NullPointerException`, either from a Lombok `@NonNull` setter
      parameter or from unboxing a `null` `Long`.
      ParamError(fieldName): a `ParamException` naming the offending field. */
  datatype Error = NullArg | ParamError(fieldName: string)

  /** A builder call either yields a value or raises one of the errors above. */
  datatype Result<+T> = Ok(value: T) | Err(error: Error)

  /** A check that passes or fails with an error, carrying no value. */
  datatype Outcome = Pass | Fail(error: Error)

  /** The field labels the builders hand to the null-or-empty check. */
  const CollectionNameLabel: string := "Collection name"
  const RoleNameLabel: string := "RoleName"

  /** True when a required string field is missing: `null` or the empty string. */
  predicate NullOrEmpty(s: Nullable<string>) {
    s.Null? || s.value == ""
  }

  /** `ParamUtils.CheckNullEmptyString`: a required string field must be neither
      null nor empty; otherwise a `ParamException` naming the field is raised. */
  function CheckNullEmptyString(s: Nullable<string>, fieldName: string): (r: Outcome)
    ensures r.Fail? <==> NullOrEmpty(s)
    ensures r.Fail? ==> r.error == ParamError(fieldName)
    ensures r.Pass? ==> s.Present? && |s.value| > 0
  {
    if NullOrEmpty(s) then Fail(ParamError(fieldName)) else Pass
  }
}
