/** A reference that may be null, as .NET references and boxed `object` values are. */
module Nullables {

  /** `Null` is the null reference; `NonNull(v)` a reference to (or a boxed copy of) `v`. */
  datatype Nullable<+T> = Null | NonNull(value: T)
}
