/** Small shared vocabulary: optional values, results carrying the services'
    exceptions, and Java's 32-bit `int` arithmetic. */
module Common {

  /** A value that may be absent: a Java `null`, a TypeScript `undefined`. */
  datatype Option<+T> = None | Some(value: T)

  /** The exception classes the services throw. Each is caught by the
      transaction boundary, so a failing call changes nothing. */
  datatype Exception =
    | UserNotFound
    | UserAlreadyExists(taken: TakenField)
    | InvalidCredentials(reason: CredentialFailure)
    | ProductNotFound
    | UnauthorizedProductAccess
    | InsufficientStock
    | OrderNotFound
    | OrderCreation
    | OrderStatusConflict

  /** `UserAlreadyExistsException` is thrown with one message for a taken
      email and another for a taken username. */
  datatype TakenField = EmailInUse | UsernameInUse

  /** `validateLogin` throws one exception class with two different messages. */
  datatype CredentialFailure = WrongEmailOrPassword | AccountDisabled

  /** The outcome of a service call: a value, or the exception it threw. */
  datatype Result<+T> = Ok(value: T) | Err(error: Exception)

  function Min(a: int, b: int): int { if a <= b then a else b }

  const TWO_TO_32: int := 0x1_0000_0000

  /** Java's `int`, and the value of an `Integer` field. */
  newtype Int32 = x: int | -0x8000_0000 <= x < 0x8000_0000

  /** Java's two's-complement `int` arithmetic: the exact result brought
      into the `int` range by adding or subtracting 2^32. */
  function Wrap32(x: int): (r: Int32)
    ensures -0x8000_0000 <= x < 0x8000_0000 ==> r as int == x
    decreases if x >= 0 then 2 * x else -2 * x - 1
  {
    if x >= 0x8000_0000 then Wrap32(x - TWO_TO_32)
    else if x < -0x8000_0000 then Wrap32(x + TWO_TO_32)
    else x as Int32
  }

  /** Wrapping agrees with the usual definition: the exact result reduced
      modulo 2^32 into the `int` range. */
  lemma {:induction false} Wrap32IsModulo(x: int)
    ensures Wrap32(x) as int == (x + 0x8000_0000) % TWO_TO_32 - 0x8000_0000
    decreases if x >= 0 then 2 * x else -2 * x - 1
  {
    if x >= 0x8000_0000 {
      Wrap32IsModulo(x - TWO_TO_32);
      ModShift(x - TWO_TO_32 + 0x8000_0000, 1);
    } else if x < -0x8000_0000 {
      Wrap32IsModulo(x + TWO_TO_32);
      ModShift(x + 0x8000_0000, 1);
    }
  }

  lemma ModShift(a: int, t: int)
    ensures (a + TWO_TO_32 * t) % TWO_TO_32 == a % TWO_TO_32
  {
  }

  /** Adding 2^32 does not change the wrapped value. */
  lemma Wrap32Shift(x: int)
    ensures Wrap32(x + TWO_TO_32) == Wrap32(x)
  {
  }

  /** A wrapped intermediate result can be wrapped again: `int` arithmetic
      composes like exact arithmetic followed by one wrap. */
  lemma {:induction false} Wrap32Add(x: int, d: int)
    ensures Wrap32(Wrap32(x) as int + d) == Wrap32(x + d)
    decreases if x >= 0 then 2 * x else -2 * x - 1
  {
    if x >= 0x8000_0000 {
      Wrap32Add(x - TWO_TO_32, d);
      Wrap32Shift(x - TWO_TO_32 + d);
    } else if x < -0x8000_0000 {
      Wrap32Add(x + TWO_TO_32, d);
      Wrap32Shift(x + d);
    }
  }
}
