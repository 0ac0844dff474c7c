/** Optional values, results, and the truthiness test that the apps apply to
    environment variables. */
module Wrappers {

  /** `T | null | undefined` in the apps' TypeScript. */
  datatype Option<+T> = None | Some(value: T)

  /** A value or a failure; stands for both `neverthrow`'s Result and for a
      thrown exception that the caller sees as a rejected promise. */
  datatype Result<+T, +E> = Ok(value: T) | Err(error: E)

  /** A process environment variable: absent, or present with a string value. */
  type EnvVar = Option<string>

  /** JavaScript truthiness of `string | undefined`: present and non-empty. */
  predicate Truthy(v: EnvVar)
  {
    v.Some? && |v.value| > 0
  }

  /** `typeof v === "string" && v.length > 0`, the configuration probe the
      document-store APLs use; it agrees with `Truthy` on every value. */
  predicate NonEmptyString(v: EnvVar)
  {
    match v
    case None => false
    case Some(s) => |s| > 0
  }

  lemma NonEmptyStringIsTruthy(v: EnvVar)
    ensures NonEmptyString(v) <==> Truthy(v)
  {
  }

  /** `s` starts with `p`. */
  predicate StartsWith(s: string, p: string)
  {
    |p| <= |s| && s[..|p|] == p
  }
}
