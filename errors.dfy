/**
 * The sentinel errors of the package (errors.go). The source wraps some of them with
 * context (`fmt.Errorf("%w: ...")`); callers test them with `errors.Is`, so the model
 * keeps only the kind. `Other` stands for any error produced outside the core: a
 * codec that rejects its input, a user's MarshalText that fails.
 */
module Errors {
  datatype Error =
    | UnsupportedType
    | TypeMismatch
    | NotStringMarshaler
    | NotStringUnmarshaler
    | NotPointer
    | NilPointer
    | MissingMarshaler
    | MissingUnmarshaler
    | Other(message: string)
}
