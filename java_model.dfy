/**
 * Java values the controllable-method runtime and the code generator handle
 * without looking inside them: nullable references, exceptions, call
 * arguments, `long` numbers, and the error-or-value shape used for thrown
 * failures.
 */
module JavaModel {

  /** A Java reference that may be `null`. */
  datatype Nullable<+T> = Null | NonNull(get: T)

  /**
   * An exception object: its identity, and whether it is a
   * `ClassCastException` (or a subclass of it), the one run-time class the
   * checked-exception resolution treats differently.
   */
  datatype Throwable = Throwable(identity: nat, isClassCastException: bool)

  /** One argument value passed to a controlled method (possibly `null`). */
  datatype Arg = Arg(identity: nat)

  const MinLong: int := -0x8000_0000_0000_0000
  const MaxLong: int := 0x7fff_ffff_ffff_ffff

  /** Java's 64-bit `long`, used for delays and wall-clock milliseconds. */
  type Long = x: int | MinLong <= x <= MaxLong

  /**
   * `java.lang.Void`. Its only Java value is `null`, so a `Nullable<Void>` the
   * model builds is always `Null`.
   */
  type Void = ()

  /** Either a value or the failure that was thrown instead. */
  datatype Result<+T, +E> = Ok(value: T) | Err(error: E)

  function Min(a: int, b: int): int
  {
    if a <= b then a else b
  }
}
